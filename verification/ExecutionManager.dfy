/** Staged submission and the durable order protocol (src/poma/execution_manager.py), with the
    effects of IbkrBroker.submit_trades (src/poma/broker.py).  Every method may be cut short by a
    crash after any effect; its contract holds of the durable state in that case too. */
module OrderExecution {
  import opened Models
  import opened OrderLifecycle
  import opened OrderStorage
  import opened BrokerModel
  import opened LedgerInvariant
  import opened Recording
  import opened ExecutionPolicy
  import opened Repricing
  import opened CashFit
  import opened QuoteSifting
  import opened PlanPhases
  import opened Reconciliation
  import opened Recovery
  import opened FamilyShares
  import opened Submissions
  import opened Environment

  class ExecutionManager {
    const store: OrderStore
    const broker: Broker
    const settings: Settings
    /** The clock is read once per command. */
    const now: real
    const outside: Outside

    constructor (store: OrderStore, broker: Broker, settings: Settings, now: real, outside: Outside)
      ensures this.store == store && this.broker == broker && this.settings == settings
      ensures this.now == now && this.outside == outside
    {
      this.store, this.broker, this.settings, this.now, this.outside := store, broker, settings, now, outside;
    }

    ghost predicate Valid()
      reads store, store.disk, broker
    {
      store.Valid() && broker.Valid() && Inv(L(), O())
    }

    ghost function L(): Ledger
      reads store.disk
    {
      store.disk.Ledger()
    }

    ghost function O(): seq<Order>
      reads broker
    {
      broker.orders
    }

    /** One durable write. */
    method Write(row: Entry) returns (r: Step)
      requires Valid() && Admissible(L(), O(), row)
      modifies store, store.disk
      ensures Valid() && !r.Raises?
      ensures L() == old(L())[row.key := row] || (r.Dies? && L() == old(L()))
      ensures StepsIn({row.key}, old(L()), O(), L(), O())
    {
      InvWrites(L(), O(), row);
      LaterReflexive(O());
      r := store.Upsert(row);
    }

    method RecordPlanned(run: string, session: string, t: Trade) returns (r: Step)
      requires Valid() && Ours(L(), run, session, t)
      requires Resubmittable(L(), KeyOf(t)) || (Unplaced(O(), KeyOf(t)) && KeyOf(t) in L() && !L()[KeyOf(t)].Terminal())
      modifies store, store.disk
      ensures Valid() && !r.Raises?
      ensures L() == old(L())[KeyOf(t) := PlannedEntry(run, session, t)] || (r.Dies? && L() == old(L()))
      ensures StepsIn({KeyOf(t)}, old(L()), O(), L(), O())
      ensures OpenOnly(L(), run, session)
    {
      PlannedAdmissible(L(), O(), run, session, t);
      r := Write(PlannedEntry(run, session, t));
    }

    method RecordResult(run: string, session: string, t: Trade, result: OrderResult) returns (r: Step)
      requires Valid() && Tagged(run, t) && OpenOnly(L(), run, session)
      requires Recordable(L(), O(), run, session, t, result, now)
      modifies store, store.disk
      ensures Valid() && !r.Raises?
      ensures L() == old(L())[KeyOf(t) := old(Recorded(L(), run, session, t, result, now))] || (r.Dies? && L() == old(L()))
      ensures StepsIn({KeyOf(t)}, old(L()), O(), L(), O())
      ensures OpenOnly(L(), run, session)
    {
      var open := store.Get(KeyOf(t));
      var base := if open.Some? then open.value else PlannedEntry(run, session, t);
      assert base == Base(L(), run, session, t);
      r := Write(base.WithOrderResult(result, now));
    }

    // ---- IbkrBroker.submit_trades ----

    /** The order of `t` is at the broker, everything before it is only touched in its own family. */
    ghost predicate Sending(run: string, session: string, t: Trade, id: nat)
      reads store, store.disk, broker
    {
      Valid() && OpenOnly(L(), run, session) && Sent(L(), O(), run, session, t, id)
    }

    ghost predicate Unresolved(t: Trade)
      requires t.orderRef.Some?
      reads store.disk
    {
      KeyOf(t) in L() && !L()[KeyOf(t)].state.CANCELLED? && !L()[KeyOf(t)].state.REJECTED?
    }

    /** Time passes at the broker while nothing is written. */
    method Pass(ghost keys: set<Ref>)
      requires Valid()
      modifies broker
      ensures Valid()
      ensures Drifted(old(O()), O()) && StepsIn(keys, L(), old(O()), L(), O())
      ensures broker.requested == old(broker.requested)
    {
      broker.Drift();
      InvDriftSteps(keys, L(), old(O()), O());
    }

    /** Callback with the order's current status. */
    method EmitStatus(run: string, session: string, t: Trade, id: nat) returns (r: Step)
      requires Sending(run, session, t, id)
      modifies store, store.disk
      ensures Sending(run, session, t, id) && !r.Raises?
      ensures StepsIn({KeyOf(t)}, old(L()), O(), L(), O())
    {
      OursFromInv(L(), O(), run, session, t);
      ReportAdmissible(L(), O(), run, session, t, id, true, now);
      OnlyOrder(L(), O(), run, session, t, id);
      ghost var before := L();
      r := RecordResult(run, session, t, BrokerResult(t, broker.orders[id], id, broker.orders[id].status, true));
      assert L()[KeyOf(t)].replaceCount == 0;
    }

    method CurrentResult(run: string, session: string, t: Trade, id: nat, hasMessage: bool)
      returns (result: OrderResult)
      requires Sending(run, session, t, id)
      ensures Recordable(L(), O(), run, session, t, result, now) && IsCurrent(O(), t, id, result)
      ensures result.hasMessage == hasMessage
    {
      OursFromInv(L(), O(), run, session, t);
      var order := broker.orders[id];
      ReportAdmissible(L(), O(), run, session, t, id, hasMessage, now);
      result := BrokerResult(t, order, id, order.status, hasMessage);
    }

    /** Whether a resolved poll has something to say: always after a cancel was requested, and else only of
        an order that was not accepted, for want of a fill or of what the broker logged. */
    method PollMessage(order: Order, orAccepted: bool) returns (hasMessage: bool)
      ensures Tells(order, orAccepted, hasMessage)
    {
      hasMessage := *;
      if !orAccepted {
        hasMessage := true;
      } else if Accepted(order.status) {
        hasMessage := false;
      } else if order.filled == 0.0 {
        hasMessage := true;
      }
    }

    /** Wait for the next poll of an order that is not done: nothing terminal was recorded for it,
        except possibly a complete fill. */
    method Wait(run: string, session: string, t: Trade, id: nat) returns (r: Step)
      requires Sending(run, session, t, id) && Live(O()[id])
      modifies broker
      ensures Sending(run, session, t, id)
      ensures StepsIn({KeyOf(t)}, L(), old(O()), L(), O())
      ensures Unresolved(t) && broker.requested == old(broker.requested)
      ensures r == Done || r == outside.waiting(KeyOf(t))
    {
      SettledSays(L(), O(), run, session, t, id);
      Pass({KeyOf(t)});
      assert Moves(old(O())[id], O()[id]);
      r := Interrupt(outside.waiting(KeyOf(t)));
    }

    /** One poll: emit the status if it changed, and stop when it is done (or accepted, when that is
        enough).  It goes on only when the order was neither.  Going on or failing leaves the order
        unresolved: no terminal cancellation or rejection was recorded. */
    method PollOnce(run: string, session: string, t: Trade, id: nat, last: RawStatus, orAccepted: bool)
      returns (r: Exit<Option<OrderResult>>)
      requires Sending(run, session, t, id)
      modifies store, store.disk, broker
      ensures Sending(run, session, t, id) && !r.NotConfirmed?
      ensures StepsIn({KeyOf(t)}, old(L()), old(O()), L(), O())
      ensures r.Raised? || r == Ok(None) ==> Unresolved(t)
      ensures r.Raised? ==> outside.waiting(KeyOf(t)).Raises?
      ensures r == Ok(None) ==> !Resolved(old(O()), id, orAccepted)
      ensures r.Ok? && r.value.Some? ==>
                && Recordable(L(), O(), run, session, t, r.value.value, now)
                && IsCurrent(O(), t, id, r.value.value) && Resolved(O(), id, orAccepted)
                && Tells(O()[id], orAccepted, r.value.value.hasMessage)
      ensures broker.requested == old(broker.requested)
    {
      var status := broker.orders[id].status;
      StepsInReflexive({KeyOf(t)}, L(), O());
      if status != last {
        var emitted := EmitStatus(run, session, t, id);
        if !emitted.Done? {
          return emitted.PropagateFailure();
        }
      }
      if (orAccepted && Accepted(status)) || IsDone(status) {
        var hasMessage := PollMessage(broker.orders[id], orAccepted);
        var result := CurrentResult(run, session, t, id, hasMessage);
        return Ok(Some(result));
      }
      ghost var l1 := L();
      var step := Wait(run, session, t, id);
      StepsInTransitive({KeyOf(t)}, old(L()), old(O()), l1, old(O()), L(), O());
      r := if step.Done? then Ok(None) else step.PropagateFailure();
    }

    /** Poll until the order is resolved or the time is up: `seen` are the orders at the polls that
        found it unresolved. */
    method PollStatus(run: string, session: string, t: Trade, id: nat, polls: nat, last: RawStatus, orAccepted: bool)
      returns (r: Exit<Option<OrderResult>>, ghost seen: seq<seq<Order>>)
      requires Sending(run, session, t, id) && polls >= 1
      modifies store, store.disk, broker
      ensures Sending(run, session, t, id) && !r.NotConfirmed?
      ensures StepsIn({KeyOf(t)}, old(L()), old(O()), L(), O())
      ensures r.Raised? || r == Ok(None) ==> Unresolved(t)
      ensures r.Raised? ==> outside.waiting(KeyOf(t)).Raises?
      ensures NeverResolved(seen, id, orAccepted) && |seen| <= polls && (r.Ok? ==> (|seen| == polls <==> r == Ok(None)))
      ensures r.Ok? && r.value.Some? ==>
                && Recordable(L(), O(), run, session, t, r.value.value, now)
                && IsCurrent(O(), t, id, r.value.value) && Resolved(O(), id, orAccepted)
                && Tells(O()[id], orAccepted, r.value.value.hasMessage)
      ensures broker.requested == old(broker.requested)
    {
      var lastStatus := last;
      seen := [];
      StepsInReflexive({KeyOf(t)}, L(), O());
      for poll := 0 to polls
        invariant Sending(run, session, t, id)
        invariant StepsIn({KeyOf(t)}, old(L()), old(O()), L(), O())
        invariant poll > 0 ==> Unresolved(t)
        invariant NeverResolved(seen, id, orAccepted) && |seen| == poll
        invariant broker.requested == old(broker.requested)
      {
        ghost var l1, o1 := L(), O();
        var status := broker.orders[id].status;
        r := PollOnce(run, session, t, id, lastStatus, orAccepted);
        StepsInTransitive({KeyOf(t)}, old(L()), old(O()), l1, o1, L(), O());
        if r != Ok(None) {
          return;
        }
        NeverResolvedNext(seen, o1, id, orAccepted);
        seen := seen + [o1];
        lastStatus := status;
      }
      r := Ok(None);
    }

    /** Request the cancel of an order that was never accepted, and say so in the ledger. */
    method RequestCancel(run: string, session: string, t: Trade, id: nat) returns (r: Step)
      requires Sending(run, session, t, id) && Unresolved(t)
      modifies store, store.disk, broker
      ensures Sending(run, session, t, id)
      ensures StepsIn({KeyOf(t)}, old(L()), old(O()), L(), O())
      ensures r.Raises? ==> Unresolved(t) && outside.waiting(KeyOf(t)).Raises?
      ensures r.Done? ==> broker.requested == old(broker.requested) + {id}
    {
      ghost var l0 := L();
      r := broker.RequestCancel(id, outside.waiting(KeyOf(t)));
      InvDriftSteps({KeyOf(t)}, L(), old(O()), O());
      assert Moves(old(O())[id], O()[id]);
      if !r.Done? {
        return;
      }
      r := EmitStatus(run, session, t, id);
      StepsInTransitive({KeyOf(t)}, l0, old(O()), l0, O(), L(), O());
    }

    method CancelUnaccepted(run: string, session: string, t: Trade, id: nat) returns (r: Exit<OrderResult>)
      requires Sending(run, session, t, id) && Unresolved(t) && settings.orderStatusTimeout >= 1
      modifies store, store.disk, broker
      ensures Sending(run, session, t, id) && !r.NotConfirmed?
      ensures StepsIn({KeyOf(t)}, old(L()), old(O()), L(), O())
      ensures r.Raised? ==> Unresolved(t) && outside.waiting(KeyOf(t)).Raises?
      ensures r.Ok? ==> Recordable(L(), O(), run, session, t, r.value, now)
      ensures r.Ok? ==> IsCurrent(O(), t, id, r.value) && r.value.hasMessage
      ensures r.Ok? ==> broker.requested == old(broker.requested) + {id}
    {
      ghost var l0, o0 := L(), O();
      var requested := RequestCancel(run, session, t, id);
      if !requested.Done? {
        return requested.PropagateFailure();
      }
      ghost var l1, o1 := L(), O();
      r := AwaitCancel(run, session, t, id);
      StepsInTransitive({KeyOf(t)}, l0, o0, l1, o1, L(), O());
    }

    /** Poll for the outcome of a requested cancel; whatever the order is by then is its result. */
    method AwaitCancel(run: string, session: string, t: Trade, id: nat) returns (r: Exit<OrderResult>)
      requires Sending(run, session, t, id) && settings.orderStatusTimeout >= 1
      modifies store, store.disk, broker
      ensures Sending(run, session, t, id) && !r.NotConfirmed?
      ensures StepsIn({KeyOf(t)}, old(L()), old(O()), L(), O())
      ensures r.Raised? ==> Unresolved(t) && outside.waiting(KeyOf(t)).Raises?
      ensures r.Ok? ==> Recordable(L(), O(), run, session, t, r.value, now)
      ensures r.Ok? ==> IsCurrent(O(), t, id, r.value) && r.value.hasMessage
      ensures broker.requested == old(broker.requested)
    {
      var polls := if settings.orderStatusTimeout < 10 then settings.orderStatusTimeout else 10;
      var polled: Exit<Option<OrderResult>>;
      ghost var seen;
      polled, seen := PollStatus(run, session, t, id, polls, PendingCancel, false);
      if !polled.Ok? {
        return polled.PropagateFailure();
      }
      if polled.value.Some? {
        return Ok(polled.value.value);
      }
      var result := CurrentResult(run, session, t, id, true);
      r := Ok(result);
    }

    /** Poll for acceptance; only if the time runs out without it, ask for the cancel, when configured, and
        poll for its outcome. */
    method WaitForAcceptance(run: string, session: string, t: Trade, id: nat)
      returns (r: Exit<OrderResult>, ghost seen: seq<seq<Order>>)
      requires Sending(run, session, t, id) && settings.orderStatusTimeout >= 1
      modifies store, store.disk, broker
      ensures Sending(run, session, t, id) && !r.NotConfirmed?
      ensures StepsIn({KeyOf(t)}, old(L()), old(O()), L(), O())
      ensures r.Raised? ==> Unresolved(t) && outside.waiting(KeyOf(t)).Raises?
      ensures r.Ok? ==> Recordable(L(), O(), run, session, t, r.value, now) && IsCurrent(O(), t, id, r.value)
      ensures r.Ok? && !r.value.hasMessage ==> Accepted(r.value.status) || (IsDone(r.value.status) && r.value.filled > 0.0)
      ensures NeverResolved(seen, id, true) && |seen| <= settings.orderStatusTimeout
      ensures r.Ok? ==>
                if |seen| < settings.orderStatusTimeout then
                  Resolved(O(), id, true) && Tells(O()[id], true, r.value.hasMessage) && broker.requested == old(broker.requested)
                else
                  && r.value.hasMessage
                  && broker.requested == old(broker.requested) + (if settings.cancelStaleOrders then {id} else {})
    {
      var polled: Exit<Option<OrderResult>>;
      polled, seen := PollStatus(run, session, t, id, settings.orderStatusTimeout, broker.orders[id].status, true);
      if !polled.Ok? {
        return polled.PropagateFailure(), seen;
      }
      if polled.value.Some? {
        return Ok(polled.value.value), seen;
      }
      ghost var l1, o1 := L(), O();
      r := TimedOut(run, session, t, id);
      StepsInTransitive({KeyOf(t)}, old(L()), old(O()), l1, o1, L(), O());
    }

    /** The time is up: request the cancel, when configured, and report what the order is. */
    method TimedOut(run: string, session: string, t: Trade, id: nat) returns (r: Exit<OrderResult>)
      requires Sending(run, session, t, id) && Unresolved(t) && settings.orderStatusTimeout >= 1
      modifies store, store.disk, broker
      ensures Sending(run, session, t, id) && !r.NotConfirmed?
      ensures StepsIn({KeyOf(t)}, old(L()), old(O()), L(), O())
      ensures r.Raised? ==> Unresolved(t) && outside.waiting(KeyOf(t)).Raises?
      ensures r.Ok? ==> Recordable(L(), O(), run, session, t, r.value, now)
      ensures r.Ok? ==> IsCurrent(O(), t, id, r.value) && r.value.hasMessage
      ensures r.Ok? ==> broker.requested == old(broker.requested) + (if settings.cancelStaleOrders then {id} else {})
    {
      if settings.cancelStaleOrders {
        r := CancelUnaccepted(run, session, t, id);
        return;
      }
      StepsInReflexive({KeyOf(t)}, L(), O());
      var result := CurrentResult(run, session, t, id, true);
      r := Ok(result);
    }

    /** placeOrder for a staged trade: the order is out, or it is not, or nobody knows. */
    method PlaceFirst(run: string, session: string, t: Trade) returns (r: Exit<nat>)
      requires Valid() && OpenOnly(L(), run, session) && Staged(L(), O(), run, session, t)
      modifies broker
      ensures Valid() && !r.NotConfirmed?
      ensures StepsIn({KeyOf(t)}, L(), old(O()), L(), O())
      ensures r.Ok? ==> Sent(L(), O(), run, session, t, r.value)
      ensures Staged(L(), O(), run, session, t) || Sent(L(), O(), run, session, t, |old(O())|)
      ensures !r.Ok? ==> FailsBy(r, outside.placing(KeyOf(t))) || (r.Raised? && t.quantity <= QTY_EPS)
    {
      ghost var o0 := O();
      r := broker.PlaceOrder(t.orderRef.value, t.quantity, outside.placing(KeyOf(t)));
      PlacedOrStaged(L(), o0, O(), run, session, t);
    }

    /** placeOrder raised: record that nobody knows whether the order exists. */
    method RecordUnseen(run: string, session: string, t: Trade, ghost id: nat) returns (r: Exit<Submission>)
      requires Valid() && Tagged(run, t) && OpenOnly(L(), run, session) && KeyOf(t) in L() && !L()[KeyOf(t)].Terminal()
      requires Unplaced(O(), KeyOf(t)) || Sent(L(), O(), run, session, t, id)
      modifies store, store.disk
      ensures Valid() && OpenOnly(L(), run, session) && (r.Ok? || r.Crashed?)
      ensures StepsIn({KeyOf(t)}, old(L()), O(), L(), O())
      ensures r.Ok? ==> KeyOf(t) in L() && Settles(run, session, t, r.value)
      ensures r.Ok? ==> r.value == Uncertain(LocalResult(t, SubmissionUnconfirmed))
      ensures r.Ok? ==> L()[KeyOf(t)].raw.SubmissionUnconfirmed?
    {
      OursFromInv(L(), O(), run, session, t);
      UnknownAdmissible(L(), O(), run, session, t, id, now);
      UnknownIsOpen(L(), run, session, t, now);
      var result := LocalResult(t, SubmissionUnconfirmed);
      ghost var sent := Sent(L(), O(), run, session, t, id);
      assert RowOK(KeyOf(t), L()[KeyOf(t)], O());
      if sent {
        OnlyOrder(L(), O(), run, session, t, id);
        SentIsTruthful(L(), O(), run, session, t, id, result);
      }
      :- RecordResult(run, session, t, result);
      OursFromInv(L(), O(), run, session, t);
      UnknownAdmissible(L(), O(), run, session, t, id, now);
      r := Ok(Uncertain(result));
    }

    /** An exception after placeOrder: record the order's identity with an uncertain status. */
    method RecordUncertain(run: string, session: string, t: Trade, id: nat) returns (r: Exit<Submission>)
      requires Sending(run, session, t, id) && Unresolved(t)
      modifies store, store.disk
      ensures Valid() && OpenOnly(L(), run, session) && (r.Ok? || r.Crashed?)
      ensures StepsIn({KeyOf(t)}, old(L()), O(), L(), O())
      ensures r.Ok? ==> KeyOf(t) in L() && Settles(run, session, t, r.value)
      ensures r.Ok? ==> r.value == Uncertain(BrokerResult(t, O()[id], id, SubmissionUnconfirmed, true))
      ensures r.Ok? ==> L()[KeyOf(t)].raw.SubmissionUnconfirmed?
    {
      OursFromInv(L(), O(), run, session, t);
      OnlyOrder(L(), O(), run, session, t, id);
      UncertainTwice(L(), O(), run, session, t, id, now);
      var result := BrokerResult(t, broker.orders[id], id, SubmissionUnconfirmed, true);
      SentIsTruthful(L(), O(), run, session, t, id, result);
      :- RecordResult(run, session, t, result);
      r := Ok(Uncertain(result));
    }

    /** Nothing was placed: record the local block. */
    method RecordBlocked(run: string, session: string, t: Trade, status: RawStatus) returns (r: Step)
      requires Valid() && Tagged(run, t) && OpenOnly(L(), run, session)
      requires KeyOf(t) in L() && Unplaced(O(), KeyOf(t)) && IsLocalBlock(status)
      requires Settled(L()[KeyOf(t)]) ==> L()[KeyOf(t)].raw == status
      modifies store, store.disk
      ensures Valid() && OpenOnly(L(), run, session) && !r.Raises?
      ensures StepsIn({KeyOf(t)}, old(L()), O(), L(), O())
      ensures KeyOf(t) in L() && Unplaced(O(), KeyOf(t))
      ensures r.Done? ==> RowSays(L(), t, LocalResult(t, status))
      ensures r.Done? ==> Recordable(L(), O(), run, session, t, LocalResult(t, status), now)
      ensures r.Done? && status.SubmissionUnconfirmed? && old(L()[KeyOf(t)].quantity) >= t.quantity ==>
                Staged(L(), O(), run, session, t)
    {
      OursFromInv(L(), O(), run, session, t);
      LocalTwice(L(), O(), run, session, t, status, now);
      r := RecordResult(run, session, t, LocalResult(t, status));
    }

    /** The result may be recorded once more when the whole batch is back. */
    ghost predicate Settles(run: string, session: string, t: Trade, s: Submission)
      requires t.orderRef.Some?
      reads store.disk, broker
    {
      match s
      case ConnectionLost => Staged(L(), O(), run, session, t)
      case _ => Recordable(L(), O(), run, session, t, s.result, now) && AnswerOf(t, s.result) && Truthful(O(), t, s.result)
    }

    /** One trade of submit_trades. */
    method SubmitOne(run: string, session: string, t: Trade) returns (r: Exit<Submission>)
      requires Valid() && OpenOnly(L(), run, session) && Staged(L(), O(), run, session, t)
      requires settings.orderStatusTimeout >= 1
      modifies store, store.disk, broker
      ensures Valid() && OpenOnly(L(), run, session) && (r.Ok? || r.Crashed?)
      ensures StepsIn({KeyOf(t)}, old(L()), old(O()), L(), O())
      ensures r.Ok? ==> KeyOf(t) in L() && Settles(run, session, t, r.value)
      ensures r.Ok? ==> Says(O(), t, r.value) && Met(outside, t, r.value)
    {
      StepsInReflexive({KeyOf(t)}, L(), O());
      var ready := Interrupt(outside.ready(KeyOf(t)));
      if ready.Dies? {
        return Crashed;
      }
      if ready.Raises? {
        if !outside.online(KeyOf(t)) {
          return Ok(ConnectionLost);
        }
        :- RecordBlocked(run, session, t, Failed);
        return Ok(Refused(LocalResult(t, Failed)));
      }
      r := SubmitReady(run, session, t);
    }

    method SubmitReady(run: string, session: string, t: Trade) returns (r: Exit<Submission>)
      requires Valid() && OpenOnly(L(), run, session) && Staged(L(), O(), run, session, t)
      requires settings.orderStatusTimeout >= 1
      modifies store, store.disk, broker
      ensures Valid() && OpenOnly(L(), run, session) && (r.Ok? || r.Crashed?)
      ensures StepsIn({KeyOf(t)}, old(L()), old(O()), L(), O())
      ensures r.Ok? ==> KeyOf(t) in L() && Settles(run, session, t, r.value)
      ensures r.Ok? ==> Says(O(), t, r.value) && Met(outside, t, r.value)
    {
      ghost var l0, o0 := L(), O();
      var placed := PlaceFirst(run, session, t);
      if placed.Crashed? {
        return Crashed;
      }
      ghost var l1, o1 := L(), O();
      if placed.Raised? {
        r := RecordUnseen(run, session, t, |o0|);
      } else {
        r := Follow(run, session, t, placed.value);
      }
      StepsInTransitive({KeyOf(t)}, l0, o0, l1, o1, L(), O());
    }

    /** The order is out: report it and wait for its acceptance. */
    method Follow(run: string, session: string, t: Trade, id: nat) returns (r: Exit<Submission>)
      requires Sending(run, session, t, id) && settings.orderStatusTimeout >= 1
      modifies store, store.disk, broker
      ensures Valid() && OpenOnly(L(), run, session) && (r.Ok? || r.Crashed?)
      ensures StepsIn({KeyOf(t)}, old(L()), old(O()), L(), O())
      ensures r.Ok? ==> KeyOf(t) in L() && Settles(run, session, t, r.value)
      ensures r.Ok? ==> Says(O(), t, r.value) && Met(outside, t, r.value)
    {
      ghost var l0, o0 := L(), O();
      :- EmitStatus(run, session, t, id);
      ghost var l1, o1 := L(), O();
      var waited: Exit<OrderResult>;
      ghost var seen;
      waited, seen := WaitForAcceptance(run, session, t, id);
      StepsInTransitive({KeyOf(t)}, l0, o0, l1, o1, L(), O());
      if waited.Ok? {
        CurrentAnswers(O(), t, id, waited.value);
        SentIsTruthful(L(), O(), run, session, t, id, waited.value);
        return Ok(Reported(waited.value));
      }
      if waited.Crashed? {
        return Crashed;
      }
      ghost var l2, o2 := L(), O();
      r := RecordUncertain(run, session, t, id);
      StepsInTransitive({KeyOf(t)}, l0, o0, l2, o2, L(), O());
    }

    /** The results so far are in order, and no trade outside the batch was touched. */
    ghost predicate Submitting(run: string, session: string, trades: seq<Trade>, results: seq<OrderResult>,
                               l0: Ledger, o0: seq<Order>)
      reads store, store.disk, broker
    {
      && Valid() && OpenOnly(L(), run, session) && Batch(run, trades)
      && StepsIn(Keys(trades), l0, o0, L(), O())
      && Progress(L(), O(), run, session, trades, results, now)
    }

    /** The rest of the batch was never sent. */
    method Unsubmitted(run: string, session: string, trades: seq<Trade>, some: seq<OrderResult>, ghost l0: Ledger,
                       ghost o0: seq<Order>)
      returns (r: Exit<seq<OrderResult>>)
      requires Submitting(run, session, trades, some, l0, o0)
      modifies store, store.disk
      ensures Valid() && OpenOnly(L(), run, session) && (r.Ok? || r.Crashed?)
      ensures StepsIn(Keys(trades), l0, o0, L(), O())
      ensures r.Ok? ==> Submitting(run, session, trades, r.value, l0, o0) && |r.value| == |trades|
      ensures r.Ok? ==> Filling(trades, some, r.value)
    {
      var results := some;
      while |results| < |trades|
        invariant Submitting(run, session, trades, results, l0, o0)
        invariant Filling(trades, some, results)
        decreases |trades| - |results|
      {
        var next :- UnsubmittedNext(run, session, trades, results, l0, o0);
        FillingNext(trades, some, results, next);
        results := results + [next];
      }
      r := Ok(results);
    }

    method UnsubmittedNext(run: string, session: string, trades: seq<Trade>, results: seq<OrderResult>,
                           ghost l0: Ledger, ghost o0: seq<Order>)
      returns (r: Exit<OrderResult>)
      requires Submitting(run, session, trades, results, l0, o0) && |results| < |trades|
      modifies store, store.disk
      ensures Valid() && OpenOnly(L(), run, session) && (r.Ok? || r.Crashed?)
      ensures StepsIn(Keys(trades), l0, o0, L(), O())
      ensures r.Ok? ==> Submitting(run, session, trades, results + [r.value], l0, o0)
      ensures r.Ok? ==> Unsent(trades[|results|], r.value)
    {
      var t := trades[|results|];
      ghost var l1, o1 := L(), O();
      var step := RecordBlocked(run, session, t, BrokerUnavailable);
      if step.Dies? {
        BatchSteps(l0, o0, l1, o1, L(), O(), run, trades, |results|);
        return Crashed;
      }
      ProgressNext(l0, o0, l1, o1, L(), O(), run, session, trades, results, LocalResult(t, BrokerUnavailable), now);
      r := Ok(LocalResult(t, BrokerUnavailable));
    }

    method SubmitNext(run: string, session: string, trades: seq<Trade>, results: seq<OrderResult>, ghost l0: Ledger,
                      ghost o0: seq<Order>)
      returns (r: Exit<Submission>)
      requires Submitting(run, session, trades, results, l0, o0) && |results| < |trades|
      requires settings.orderStatusTimeout >= 1
      modifies store, store.disk, broker
      ensures Valid() && OpenOnly(L(), run, session) && (r.Ok? || r.Crashed?)
      ensures StepsIn(Keys(trades), l0, o0, L(), O())
      ensures r.Ok? ==> Submitting(run, session, trades, results + (if r.value.ConnectionLost? then [] else [r.value.result]), l0, o0)
      ensures r.Ok? ==> Says(O(), trades[|results|], r.value) && Met(outside, trades[|results|], r.value)
    {
      var t := trades[|results|];
      ghost var l1, o1 := L(), O();
      r := SubmitOne(run, session, t);
      if r.Crashed? {
        BatchSteps(l0, o0, l1, o1, L(), O(), run, trades, |results|);
      } else if r.value.ConnectionLost? {
        ProgressSame(l0, o0, l1, o1, L(), O(), run, session, trades, results, now);
        assert results + [] == results;
      } else {
        ProgressNext(l0, o0, l1, o1, L(), O(), run, session, trades, results, r.value.result, now);
      }
    }

    /** Send a staged batch, one order at a time, until an outcome stops it: `tried` is what became of
        the trades that were tried. */
    method SubmitTrades(run: string, session: string, side: Side, trades: seq<Trade>)
      returns (r: Exit<seq<OrderResult>>, ghost tried: seq<Submission>)
      requires Valid() && OpenOnly(L(), run, session) && Batch(run, trades)
      requires forall j | 0 <= j < |trades| :: Staged(L(), O(), run, session, trades[j])
      requires settings.orderStatusTimeout >= 1
      modifies store, store.disk, broker
      ensures Valid() && OpenOnly(L(), run, session) && (r.Ok? || r.Crashed?)
      ensures StepsIn(Keys(trades), old(L()), old(O()), L(), O())
      ensures r.Ok? ==> Submitting(run, session, trades, r.value, old(L()), old(O())) && |r.value| == |trades|
      ensures r.Ok? ==> Batched(outside, side, trades, r.value, tried, settings.maxAcceptanceFailures)
    {
      ghost var l0, o0 := L(), O();
      StepsInReflexive(Keys(trades), L(), O());
      tried := [];
      var connected := Interrupt(outside.connected(side));
      if connected.Dies? {
        return Crashed, tried;
      }
      var results: seq<OrderResult> := [];
      var failures, stopped := 0, connected.Raises?;
      while |results| < |trades| && !stopped
        invariant Submitting(run, session, trades, results, l0, o0)
        invariant TryingAll(trades, tried, results, failures, stopped, connected.Raises?)
        decreases |trades| - |results|, !stopped
      {
        ghost var more;
        var one: Exit<(seq<OrderResult>, nat, bool)>;
        one, more := TryNext(run, session, trades, tried, results, failures, connected.Raises?, l0, o0);
        if one.Crashed? {
          return Crashed, tried;
        }
        tried := more;
        results, failures, stopped := one.value.0, one.value.1, one.value.2;
      }
      r := Unsubmitted(run, session, trades, results, l0, o0);
      if r.Ok? {
        FilledIsBatched(outside, side, trades, results, r.value, tried, failures, stopped, connected.Raises?, settings.maxAcceptanceFailures);
      }
    }

    predicate TryingAll(trades: seq<Trade>, tried: seq<Submission>, results: seq<OrderResult>, failures: nat, stopped: bool,
                        lost: bool) {
      AllMet(outside, trades, tried) && Trying(tried, results, failures, stopped, lost, settings.maxAcceptanceFailures)
    }

    /** Try one more trade. */
    method TryNext(run: string, session: string, trades: seq<Trade>, ghost tried: seq<Submission>, results: seq<OrderResult>,
                   failures: nat, ghost lost: bool, ghost l0: Ledger, ghost o0: seq<Order>)
      returns (r: Exit<(seq<OrderResult>, nat, bool)>, ghost more: seq<Submission>)
      requires Submitting(run, session, trades, results, l0, o0) && |results| < |trades|
      requires TryingAll(trades, tried, results, failures, false, lost) && settings.orderStatusTimeout >= 1
      modifies store, store.disk, broker
      ensures Valid() && OpenOnly(L(), run, session) && (r.Ok? || r.Crashed?)
      ensures StepsIn(Keys(trades), l0, o0, L(), O())
      ensures r.Ok? ==> Submitting(run, session, trades, r.value.0, l0, o0)
      ensures r.Ok? ==> TryingAll(trades, more, r.value.0, r.value.1, r.value.2, lost)
      ensures r.Ok? ==> |results| <= |r.value.0| <= |trades| && (r.value.2 || |results| < |r.value.0|)
    {
      more := tried;
      var one := SubmitNext(run, session, trades, results, l0, o0);
      if one.Crashed? {
        return Crashed, more;
      }
      TryingNext(tried, results, failures, lost, settings.maxAcceptanceFailures, one.value);
      AllMetNext(outside, trades, tried, one.value);
      more := tried + [one.value];
      var results', failures', stopped := Counted(results, failures, one.value);
      r := Ok((results', failures', stopped));
    }

    /** The results, the count of failures in a row, and whether to stop, after one more trade. */
    method Counted(some: seq<OrderResult>, before: nat, one: Submission)
      returns (results: seq<OrderResult>, failures: nat, stopped: bool)
      ensures (results, failures, stopped) == Counting(some, before, one, settings.maxAcceptanceFailures)
      ensures |some| <= |results| && (stopped || |some| < |results|)
    {
      results, failures, stopped := some, before, false;
      match one {
        case ConnectionLost =>
          stopped := true;
        case Reported(result) =>
          results := results + [result];
          failures := if Accepted(result.status) || result.filled > 0.0 then 0 else failures + 1;
          stopped := failures > 0 && failures >= settings.maxAcceptanceFailures;
        case Refused(result) =>
          results := results + [result];
        case Uncertain(result) =>
          results := results + [result];
          stopped := true;
      }
    }
 
    // ---- staged submission ----

    /** Persist uncertainty for the whole batch before any of it crosses the network. */
    method Stage(run: string, session: string, trades: seq<Trade>) returns (r: Step)
      requires Valid() && OpenOnly(L(), run, session) && AllPending(L(), O(), run, trades)
      modifies store, store.disk
      ensures Valid() && OpenOnly(L(), run, session) && !r.Raises?
      ensures StepsIn(Keys(trades), old(L()), O(), L(), O())
      ensures r.Done? ==> Staging(L(), O(), run, session, trades, |trades|)
    {
      ghost var l0 := L();
      StepsInReflexive(Keys(trades), L(), O());
      for i := 0 to |trades|
        invariant Valid() && OpenOnly(L(), run, session)
        invariant StepsIn(Keys(trades), l0, O(), L(), O())
        invariant Staging(L(), O(), run, session, trades, i)
      {
        ghost var l1 := L();
        r := RecordBlocked(run, session, trades[i], SubmissionUnconfirmed);
        BatchSteps(l0, O(), l1, O(), L(), O(), run, trades, i);
        if r.Dies? {
          return;
        }
        StagingNext(l1, O(), L(), O(), run, session, trades, i);
      }
      r := Done;
    }

    /** Record what the broker returned, one row per trade. */
    method RecordResults(run: string, session: string, trades: seq<Trade>, results: seq<OrderResult>, answers: Answers)
      returns (r: Exit<Answers>)
      requires Valid() && OpenOnly(L(), run, session) && Batch(run, trades)
      requires Returning(L(), O(), run, session, trades, results, 0, now)
      modifies store, store.disk
      ensures Valid() && OpenOnly(L(), run, session) && (r.Ok? || r.Crashed?)
      ensures StepsIn(Keys(trades), old(L()), O(), L(), O())
      ensures r.Ok? ==> AllAnswered(O(), r.value, trades) && KeepsAnswers(answers, r.value, TickersOf(trades))
      ensures r.Ok? ==> ForQuantity(r.value, trades, |trades|) && Posted(L(), r.value, trades, results, |trades|)
    {
      ghost var l0 := L();
      StepsInReflexive(Keys(trades), L(), O());
      var after := answers;
      for i := 0 to |trades|
        invariant Valid() && OpenOnly(L(), run, session)
        invariant StepsIn(Keys(trades), l0, O(), L(), O())
        invariant Returning(L(), O(), run, session, trades, results, i, now)
        invariant Answering(O(), answers, after, trades, i) && ForQuantity(after, trades, i)
        invariant Posted(L(), after, trades, results, i)
      {
        ghost var l1 := L();
        AnsweringNext(O(), answers, after, run, trades, i, results[i]);
        ForQuantityNext(run, after, trades, i, results[i]);
        RecordedSays(L(), run, session, trades[i], results[i], now);
        var step := RecordResult(run, session, trades[i], results[i]);
        BatchSteps(l0, O(), l1, O(), L(), O(), run, trades, i);
        if step.Dies? {
          return Crashed;
        }
        PostedNext(l1, O(), L(), O(), run, after, trades, results, i);
        after := after[trades[i].ticker := results[i]];
        ReturningNext(l1, O(), L(), O(), run, session, trades, results, i, now);
      }
      r := Ok(after);
    }

    /** Stage, send, and record a batch that is ready to go. */
    method SendBatch(run: string, session: string, side: Side, trades: seq<Trade>, answers: Answers)
      returns (r: Exit<Answers>, ghost results: seq<OrderResult>, ghost tried: seq<Submission>)
      requires Valid() && OpenOnly(L(), run, session) && AllPending(L(), O(), run, trades)
      requires settings.orderStatusTimeout >= 1
      modifies store, store.disk, broker
      ensures Valid() && OpenOnly(L(), run, session) && (r.Ok? || r.Crashed?)
      ensures StepsIn(Keys(trades), old(L()), old(O()), L(), O())
      ensures r.Ok? ==> AllAnswered(O(), r.value, trades) && KeepsAnswers(answers, r.value, TickersOf(trades))
      ensures r.Ok? ==> ForQuantity(r.value, trades, |trades|) && Posted(L(), r.value, trades, results, |trades|)
      ensures r.Ok? ==> OrdersFor(old(O()), O(), trades)
      ensures r.Ok? ==> Batched(outside, side, trades, results, tried, settings.maxAcceptanceFailures)
    {
      results, tried := [], [];
      ghost var l0, o0 := L(), O();
      var staged := Stage(run, session, trades);
      if !staged.Done? {
        return staged.PropagateFailure(), results, tried;
      }
      ghost var l1, o1 := L(), O();
      var sent: Exit<seq<OrderResult>>;
      sent, tried := SubmitTrades(run, session, side, trades);
      StepsInTransitive(Keys(trades), l0, o0, l1, o1, L(), O());
      if !sent.Ok? {
        return Crashed, results, tried;
      }
      results := sent.value;
      ghost var l2, o2 := L(), O();
      r := RecordResults(run, session, trades, sent.value, answers);
      StepsInTransitive(Keys(trades), l0, o0, l2, o2, L(), O());
      if r.Ok? {
        AnsweredOrders(o0, O(), run, trades, r.value);
      }
    }
 
    /** One trade of the batch: recorded as planned at its new price, or blocked. */
    method SiftOne(run: string, session: string, t: Trade, priced: Option<Trade>, block: RawStatus) returns (r: Step)
      requires Valid() && OpenOnly(L(), run, session) && Pending(L(), O(), run, t)
      requires priced.Some? ==> SameOrder(t, priced.value)
      requires block.QuoteBlocked? || block.ContractUnresolved?
      modifies store, store.disk
      ensures Valid() && OpenOnly(L(), run, session) && !r.Raises?
      ensures StepsIn({KeyOf(t)}, old(L()), O(), L(), O())
      ensures r.Done? && priced.Some? ==> Pending(L(), O(), run, priced.value)
      ensures r.Done? ==> SiftedRow(L(), run, session, t, priced, block)
    {
      if priced.Some? {
        OursFromInv(L(), O(), run, session, priced.value);
        ghost var l0 := L();
        r := RecordPlanned(run, session, priced.value);
        if r.Done? {
          PlannedPending(l0, O(), L(), run, session, priced.value);
        }
      } else {
        r := RecordBlocked(run, session, t, block);
      }
    }

    method Sift(run: string, session: string, trades: seq<Trade>, prices: Prices, unresolved: set<string>,
                answers: Answers)
      returns (r: Exit<(seq<Trade>, Answers)>)
      requires Valid() && OpenOnly(L(), run, session) && AllPending(L(), O(), run, trades)
      requires PricesMatch(trades, prices)
      modifies store, store.disk
      ensures Valid() && OpenOnly(L(), run, session) && (r.Ok? || r.Crashed?)
      ensures StepsIn(Keys(trades), old(L()), O(), L(), O())
      ensures r.Ok? ==> r.value.0 == Submittables(trades, prices) && AllPending(L(), O(), run, r.value.0)
                        && Split(O(), trades, r.value.0, answers, r.value.1)
      ensures r.Ok? ==> AnsweredBlocks(trades, prices, unresolved, r.value.1, |trades|)
      ensures r.Ok? ==> SiftedRows(L(), run, session, trades, prices, unresolved, |trades|)
    {
      ghost var l0 := L();
      StepsInReflexive(Keys(trades), L(), O());
      SiftedStarts(L(), O(), run, session, trades, prices, unresolved, answers);
      var submittable: seq<Trade>, after := [], answers;
      for i := 0 to |trades|
        invariant Sifting(run, session, trades, prices, unresolved, i, submittable, answers, after, l0)
      {
        var next := SiftNext(run, session, trades, prices, unresolved, i, submittable, answers, after, l0);
        if !next.Ok? {
          return Crashed;
        }
        submittable, after := next.value.0, next.value.1;
      }
      SiftedSplits(L(), O(), run, trades, prices, submittable, answers, after);
      r := Ok((submittable, after));
    }

    /** The first `n` trades are sifted, recorded and answered. */
    ghost predicate Sifting(run: string, session: string, trades: seq<Trade>, prices: Prices, unresolved: set<string>, n: nat,
                            submittable: seq<Trade>, answers: Answers, after: Answers, l0: Ledger)
      reads store, store.disk, broker
    {
      && Valid() && OpenOnly(L(), run, session) && StepsIn(Keys(trades), l0, O(), L(), O())
      && Sifted(L(), O(), run, trades, prices, n, submittable, answers, after)
      && AnsweredBlocks(trades, prices, unresolved, after, n) && SiftedRows(L(), run, session, trades, prices, unresolved, n)
    }

    method SiftNext(run: string, session: string, trades: seq<Trade>, prices: Prices, unresolved: set<string>, i: nat,
                    submittable: seq<Trade>, ghost answers: Answers, after: Answers, ghost l0: Ledger)
      returns (r: Exit<(seq<Trade>, Answers)>)
      requires Sifting(run, session, trades, prices, unresolved, i, submittable, answers, after, l0) && i < |trades|
      modifies store, store.disk
      ensures Valid() && OpenOnly(L(), run, session) && (r.Ok? || r.Crashed?)
      ensures StepsIn(Keys(trades), l0, O(), L(), O())
      ensures r.Ok? ==> Sifting(run, session, trades, prices, unresolved, i + 1, r.value.0, answers, r.value.1, l0)
    {
      ghost var l1 := L();
      var t := trades[i];
      assert t in trades;
      var priced := Lookup(prices, t.ticker);
      AnsweredBlocksNext(run, trades, prices, unresolved, after, i);
      var step := SiftOne(run, session, t, priced, QuoteBlock(t, unresolved));
      BatchSteps(l0, O(), l1, O(), L(), O(), run, trades, i);
      if step.Dies? {
        return Crashed;
      }
      SiftedRowsNext(l1, O(), L(), run, session, trades, prices, unresolved, i);
      if priced.Some? {
        SiftedPriced(l1, O(), L(), run, trades, prices, i, submittable, answers, after);
        return Ok((submittable + [priced.value], after));
      }
      var result := LocalResult(t, QuoteBlock(t, unresolved));
      SiftedBlocked(l1, O(), L(), run, trades, prices, i, submittable, answers, after, result);
      return Ok((submittable, after[t.ticker := result]));
    }

    /** Reprice a pending batch off fresh quotes: what can be priced goes on, in order, at the price of
        its last quote; the rest is recorded as blocked.  `p` traces it. */
    method RepriceForExecution(run: string, session: string, side: Side, trades: seq<Trade>, answers: Answers)
      returns (r: Exit<(seq<Trade>, Answers)>, ghost p: Phase)
      requires Valid() && OpenOnly(L(), run, session) && AllPending(L(), O(), run, trades)
      modifies store, store.disk
      ensures Valid() && OpenOnly(L(), run, session) && !r.NotConfirmed?
      ensures StepsIn(Keys(trades), old(L()), O(), L(), O())
      ensures r.Ok? ==> AllPending(L(), O(), run, r.value.0) && Split(O(), trades, r.value.0, answers, r.value.1)
      ensures r.Ok? ==> p == Unpriced(trades).(rounds := p.rounds, prices := p.prices, unresolved := p.unresolved, priced := r.value.0)
      ensures r.Ok? ==> PricesDue(p, side, settings, outside)
      ensures r.Ok? && settings.quoted ==>
                && AnsweredBlocks(trades, p.prices, p.unresolved, r.value.1, |trades|) && PricesMatch(trades, p.prices)
                && SiftedRows(L(), run, session, trades, p.prices, p.unresolved, |trades|)
                && (trades != [] ==> r.value.0 == Submittables(trades, p.prices))
      ensures r.Ok? && !settings.quoted ==> r.value == (trades, answers)
      ensures r.Raised? ==> settings.quoted && QuotesFail(outside, side)
    {
      p := Unpriced(trades);
      StepsInReflexive(Keys(trades), L(), O());
      if !settings.quoted || trades == [] {
        SplitWhole(O(), trades, answers);
        p := p.(priced := trades);
        return Ok((trades, answers)), p;
      }
      var quoted: Exit<(map<string, Trade>, set<string>)>;
      ghost var rounds, refresh;
      quoted, rounds, refresh := PriceBatch(trades, settings.pricing, outside.quotes(side));
      if !quoted.Ok? {
        return quoted.PropagateFailure(), p;
      }
      PricesOfBatch(trades, rounds, refresh, settings.pricing, quoted.value.0);
      r := Sift(run, session, trades, quoted.value.0, quoted.value.1, answers);
      if r.Ok? {
        p := p.(rounds := rounds, prices := quoted.value.0, unresolved := quoted.value.1, priced := r.value.0);
      }
    }

    /** Send a batch unless it is empty. */
    method SendAny(run: string, session: string, side: Side, trades: seq<Trade>, answers: Answers)
      returns (r: Exit<Answers>, ghost results: seq<OrderResult>, ghost tried: seq<Submission>)
      requires Valid() && OpenOnly(L(), run, session) && AllPending(L(), O(), run, trades)
      requires settings.orderStatusTimeout >= 1
      modifies store, store.disk, broker
      ensures Valid() && OpenOnly(L(), run, session) && (r.Ok? || r.Crashed?)
      ensures StepsIn(Keys(trades), old(L()), old(O()), L(), O())
      ensures r.Ok? ==> AllAnswered(O(), r.value, trades) && KeepsAnswers(answers, r.value, TickersOf(trades))
      ensures r.Ok? ==> ResultsAnswer(r.value, trades, results) && AllSaid(L(), trades, r.value)
      ensures r.Ok? ==> Batched(outside, side, trades, results, tried, settings.maxAcceptanceFailures)
      ensures r.Ok? ==> OrdersFor(old(O()), O(), trades)
    {
      if trades == [] {
        StepsInReflexive(Keys(trades), L(), O());
        return Ok(answers), [], [];
      }
      r, results, tried := SendBatch(run, session, side, trades, answers);
      if r.Ok? {
        PostedIsSaid(L(), r.value, trades, results);
      }
    }

    /** One phase of submission, for the sells: whatever has a price is sent. */
    method SubmitPhase(run: string, session: string, trades: seq<Trade>, answers: Answers)
      returns (r: Exit<Answers>, ghost p: Phase)
      requires Valid() && OpenOnly(L(), run, session) && AllPending(L(), O(), run, trades)
      requires settings.orderStatusTimeout >= 1
      modifies store, store.disk, broker
      ensures Valid() && OpenOnly(L(), run, session) && !r.NotConfirmed?
      ensures StepsIn(Keys(trades), old(L()), old(O()), L(), O())
      ensures r.Ok? ==> AllAnswered(O(), r.value, trades) && KeepsAnswers(answers, r.value, TickersOf(trades))
      ensures r.Ok? ==> PhaseRan(p, SELL, settings, outside, r.value) && AllSaid(L(), trades, r.value)
      ensures r.Ok? ==> OrdersFor(old(O()), O(), p.sent)
      ensures r.Ok? ==> p.due == trades && (settings.quoted ==> PricesMatch(trades, p.prices))
      ensures r.Raised? ==> SubmissionFails(settings, outside)
    {
      ghost var l0, o0 := L(), O();
      var repriced: Exit<(seq<Trade>, Answers)>;
      repriced, p := RepriceForExecution(run, session, SELL, trades, answers);
      if !repriced.Ok? {
        return repriced.PropagateFailure(), p;
      }
      var (submittable, after) := repriced.value;
      SplitKeys(O(), run, trades, submittable, answers, after);
      ghost var l1, o1 := L(), O();
      ghost var results, tried;
      r, results, tried := SendAny(run, session, SELL, submittable, after);
      StepsInWidens(Keys(submittable), Keys(trades), l1, o1, L(), O());
      StepsInTransitive(Keys(trades), l0, o0, l1, o1, L(), O());
      if r.Ok? {
        p := p.(sent := submittable, results := results, tried := tried);
        SplitAnswers(o1, O(), run, trades, submittable, answers, after, r.value);
        PhaseDone(run, session, p, SELL, settings, outside, l1, o1, after, L(), O(), r.value);
      }
    }

    // ---- planning ----

    /** Attach orderRefs: the key this run already has for the ticker and side, else a new one. */
    method Tag(run: string, trades: seq<Trade>, offset: nat) returns (tagged: seq<Trade>)
      requires Valid() && DistinctTickers(trades)
      modifies store
      ensures Valid() && TagsOf(L(), run, trades, tagged)
    {
      var prior := store.GetLatestRunTrades(run);
      tagged := TagAll(L(), O(), run, trades, offset, prior);
    }

    method PlanOne(run: string, session: string, t: Trade) returns (r: Step)
      requires Valid() && OpenOnly(L(), run, session) && Tagged(run, t) && OwnKey(L(), run, t)
      requires Resubmittable(L(), KeyOf(t))
      modifies store, store.disk
      ensures Valid() && OpenOnly(L(), run, session) && !r.Raises?
      ensures StepsIn({KeyOf(t)}, old(L()), O(), L(), O())
      ensures r.Done? ==> Pending(L(), O(), run, t) && L()[KeyOf(t)] == PlannedEntry(run, session, t)
    {
      ResubmittableIsUnplaced(L(), O(), KeyOf(t));
      r := RecordPlanned(run, session, t);
    }

    /** Record what is to be submitted as planned; answer from its row what already reached the broker. */
    method PlanPhase(run: string, session: string, tagged: seq<Trade>, latest: Ledger, answers: Answers)
      returns (r: Exit<(seq<Trade>, Answers)>)
      requires Valid() && OpenOnly(L(), run, session) && Batch(run, tagged)
      requires forall j | 0 <= j < |tagged| :: SameRow(L(), latest, KeyOf(tagged[j])) && OwnKey(L(), run, tagged[j])
      modifies store, store.disk
      ensures Valid() && OpenOnly(L(), run, session) && (r.Ok? || r.Crashed?)
      ensures StepsIn(Keys(DueOf(tagged, latest)), old(L()), O(), L(), O())
      ensures r.Ok? ==> Planning(L(), O(), run, session, tagged, latest, |tagged|, r.value.0, answers, r.value.1)
      ensures r.Ok? ==> PlannedRows(L(), run, session, r.value.0)
    {
      ghost var l0, keys := L(), Keys(DueOf(tagged, latest));
      StepsInReflexive(keys, L(), O());
      DueMembers(tagged, latest);
      var due: seq<Trade>, after := [], answers;
      for i := 0 to |tagged|
        invariant Valid() && OpenOnly(L(), run, session)
        invariant StepsIn(keys, l0, O(), L(), O())
        invariant Planning(L(), O(), run, session, tagged, latest, i, due, answers, after)
        invariant PlannedRows(L(), run, session, due)
      {
        var t := tagged[i];
        assert t in tagged;
        if Resubmittable(latest, KeyOf(t)) {
          ghost var l1 := L();
          var step := PlanOne(run, session, t);
          DueSteps(l0, l1, L(), O(), tagged, latest, t);
          if step.Dies? {
            return Crashed;
          }
          DueNext(run, tagged, latest, i);
          PlannedRowsNext(l1, O(), L(), O(), run, session, due, t);
          PlanningDue(l1, O(), L(), run, session, tagged, latest, i, due, answers, after);
          due := due + [t];
        } else {
          PlanningReplay(L(), O(), run, session, tagged, latest, i, due, answers, after);
          after := after[t.ticker := ReplayResult(t, latest[KeyOf(t)])];
        }
      }
      r := Ok((due, after));
    }
 
    /** Record a cash block for every buy of the batch. */
    method BlockBuys(run: string, session: string, buys: seq<Trade>, answers: Answers) returns (r: Exit<Answers>)
      requires Valid() && OpenOnly(L(), run, session) && AllPending(L(), O(), run, buys)
      modifies store, store.disk
      ensures Valid() && OpenOnly(L(), run, session) && (r.Ok? || r.Crashed?)
      ensures StepsIn(Keys(buys), old(L()), O(), L(), O())
      ensures r.Ok? ==> AllAnswered(O(), r.value, buys) && KeepsAnswers(answers, r.value, TickersOf(buys))
      ensures r.Ok? ==> AllLocal(r.value, buys, |buys|, BuyingPowerBlocked)
      ensures r.Ok? ==> Posted(L(), r.value, buys, LocalResults(buys, BuyingPowerBlocked), |buys|)
    {
      ghost var l0, results := L(), LocalResults(buys, BuyingPowerBlocked);
      StepsInReflexive(Keys(buys), L(), O());
      var after := answers;
      for i := 0 to |buys|
        invariant Valid() && OpenOnly(L(), run, session)
        invariant StepsIn(Keys(buys), l0, O(), L(), O())
        invariant PendingFrom(L(), O(), run, buys, i)
        invariant Answering(O(), answers, after, buys, i)
        invariant AllLocal(after, buys, i, BuyingPowerBlocked)
        invariant Posted(L(), after, buys, results, i)
      {
        ghost var l1 := L();
        var result := LocalResult(buys[i], BuyingPowerBlocked);
        AnsweringNext(O(), answers, after, run, buys, i, result);
        AllLocalNext(run, after, buys, i, BuyingPowerBlocked);
        var step := RecordBlocked(run, session, buys[i], BuyingPowerBlocked);
        BatchSteps(l0, O(), l1, O(), L(), O(), run, buys, i);
        if step.Dies? {
          return Crashed;
        }
        PostedNext(l1, O(), L(), O(), run, after, buys, results, i);
        after := after[buys[i].ticker := result];
        PendingFromNext(l1, O(), L(), O(), run, buys, i);
      }
      r := Ok(after);
    }

    /** Size repriced buys to the cash the broker reports now, then send or block them.  `sent` are
        the buys as they went out. */
    method FundBuys(run: string, session: string, buys: seq<Trade>, answers: Answers)
      returns (r: Exit<Answers>, ghost sent: seq<Trade>, ghost results: seq<OrderResult>, ghost tried: seq<Submission>)
      requires Valid() && OpenOnly(L(), run, session) && AllPending(L(), O(), run, buys) && AllFundable(buys)
      requires settings.orderStatusTimeout >= 1
      modifies store, store.disk, broker
      ensures Valid() && OpenOnly(L(), run, session) && (r.Ok? || r.Crashed?)
      ensures StepsIn(Keys(buys), old(L()), old(O()), L(), O())
      ensures r.Ok? ==> AllAnswered(O(), r.value, buys) && KeepsAnswers(answers, r.value, TickersOf(buys))
      ensures r.Ok? ==> sent == SentOf(BUY, buys, outside.Cash(), settings.pricing.rules)
      ensures r.Ok? ==> Batched(outside, BUY, sent, results, tried, settings.maxAcceptanceFailures)
      ensures r.Ok? ==> AnswersSent(r.value, buys, sent, results) && AllSaid(L(), buys, r.value)
      ensures r.Ok? ==> OrdersFor(old(O()), O(), sent)
    {
      var cash: Option<real> := None;
      if BuyCashOf(buys) > QTY_EPS {
        if outside.account.Crashed? {
          StepsInReflexive(Keys(buys), L(), O());
          return Crashed, [], [], [];
        }
        cash := outside.Cash();
      }
      var fitted, blocked := FitBuysToCash(buys, cash, settings.pricing.rules);
      sent := if blocked then [] else fitted;
      SentAsFitted(buys, cash, outside.Cash(), settings.pricing.rules, fitted, blocked);
      r, results, tried := SendFitted(run, session, buys, fitted, blocked, answers);
    }

    /** Send the buys as they fit the cash, or block them all. */
    method SendFitted(run: string, session: string, buys: seq<Trade>, fitted: seq<Trade>, blocked: bool,
                      answers: Answers)
      returns (r: Exit<Answers>, ghost results: seq<OrderResult>, ghost tried: seq<Submission>)
      requires Valid() && OpenOnly(L(), run, session) && AllPending(L(), O(), run, buys)
      requires settings.orderStatusTimeout >= 1 && (!blocked ==> AllShrunk(buys, fitted, settings.pricing.rules))
      modifies store, store.disk, broker
      ensures Valid() && OpenOnly(L(), run, session) && (r.Ok? || r.Crashed?)
      ensures StepsIn(Keys(buys), old(L()), old(O()), L(), O())
      ensures r.Ok? ==> AllAnswered(O(), r.value, buys) && KeepsAnswers(answers, r.value, TickersOf(buys))
      ensures r.Ok? ==> AllSaid(L(), buys, r.value)
      ensures r.Ok? ==>
                var sent := if blocked then [] else fitted;
                && Batched(outside, BUY, sent, results, tried, settings.maxAcceptanceFailures)
                && AnswersSent(r.value, buys, sent, results) && OrdersFor(old(O()), O(), sent)
    {
      if blocked {
        results, tried := [], [];
        r := BlockBuys(run, session, buys, answers);
        if r.Ok? {
          PostedIsSaid(L(), r.value, buys, LocalResults(buys, BuyingPowerBlocked));
        }
        return;
      }
      ShrunkPending(L(), O(), run, buys, fitted, settings.pricing.rules);
      r, results, tried := SendAny(run, session, BUY, fitted, answers);
      if r.Ok? {
        ShrunkAnswers(O(), buys, fitted, settings.pricing.rules, r.value);
        ShrunkSaid(L(), buys, fitted, settings.pricing.rules, r.value);
      }
    }

    /** The buy phase: of the buys, those with a price are all blocked, or go out shrunk to the cash. */
    method SubmitBuys(run: string, session: string, buys: seq<Trade>, answers: Answers)
      returns (r: Exit<Answers>, ghost p: Phase)
      requires Valid() && OpenOnly(L(), run, session) && AllPending(L(), O(), run, buys) && AllFundable(buys)
      requires settings.orderStatusTimeout >= 1 && StandardRules(settings.pricing.rules)
      modifies store, store.disk, broker
      ensures Valid() && OpenOnly(L(), run, session) && !r.NotConfirmed?
      ensures StepsIn(Keys(buys), old(L()), old(O()), L(), O())
      ensures r.Ok? ==> AllAnswered(O(), r.value, buys) && KeepsAnswers(answers, r.value, TickersOf(buys))
      ensures r.Ok? ==> PhaseRan(p, BUY, settings, outside, r.value) && AllSaid(L(), buys, r.value)
      ensures r.Ok? ==> OrdersFor(old(O()), O(), p.sent)
      ensures r.Ok? ==> p.due == buys
      ensures r.Raised? ==> SubmissionFails(settings, outside)
    {
      ghost var l0, o0 := L(), O();
      var repriced: Exit<(seq<Trade>, Answers)>;
      repriced, p := RepriceForExecution(run, session, BUY, buys, answers);
      if !repriced.Ok? {
        return repriced.PropagateFailure(), p;
      }
      var (priced, after) := repriced.value;
      PricedFundable(p, settings, outside);
      SplitKeys(O(), run, buys, priced, answers, after);
      ghost var l1, o1 := L(), O();
      ghost var sent, results, tried;
      r, sent, results, tried := FundBuys(run, session, priced, after);
      StepsInWidens(Keys(priced), Keys(buys), l1, o1, L(), O());
      StepsInTransitive(Keys(buys), l0, o0, l1, o1, L(), O());
      if r.Ok? {
        p := p.(sent := sent, results := results, tried := tried);
        SplitAnswers(o1, O(), run, buys, priced, answers, after, r.value);
        PhaseDone(run, session, p, BUY, settings, outside,
                  l1, o1, after, L(), O(), r.value);
      }
    }

    /** Tag both sides of the plan and read their rows. */
    method TagPlan(plan: Plan) returns (sells: seq<Trade>, buys: seq<Trade>, latest: Ledger)
      requires Valid() && Executable(plan)
      modifies store
      ensures Valid() && BothTagged(L(), plan, sells, buys)
      ensures LatestOf(L(), latest, Keys(sells) + Keys(buys))
    {
      var s, b := OfSide(plan.trades, SELL), OfSide(plan.trades, BUY);
      OfSideMembers(plan.trades, SELL);
      OfSideMembers(plan.trades, BUY);
      sells := Tag(plan.run, s, 0);
      buys := Tag(plan.run, b, |s|);
      latest := store.GetLatestMany(Keys(sells + buys));
      KeysOfBoth(sells, buys);
    }

    /** Both planning phases, sells first. */
    method PlanBoth(plan: Plan, sells: seq<Trade>, buys: seq<Trade>, latest: Ledger)
      returns (r: Exit<(seq<Trade>, seq<Trade>, Answers)>, ghost mid: Answers)
      requires Valid() && OpenOnly(L(), plan.run, plan.session) && Executable(plan)
      requires BothTagged(L(), plan, sells, buys) && LatestOf(L(), latest, Keys(sells) + Keys(buys))
      modifies store, store.disk
      ensures Valid() && OpenOnly(L(), plan.run, plan.session) && (r.Ok? || r.Crashed?)
      ensures StepsIn(Keys(DueOf(sells, latest)) + Keys(DueOf(buys, latest)), old(L()), O(), L(), O())
      ensures r.Ok? ==>
                && r.value.0 == DueOf(sells, latest) && AllPending(L(), O(), plan.run, r.value.0)
                && r.value.1 == DueOf(buys, latest) && AllPending(L(), O(), plan.run, r.value.1)
                && Split(O(), sells, r.value.0, map[], mid) && Replayed(sells, latest, mid)
                && Split(O(), buys, r.value.1, mid, r.value.2) && Replayed(buys, latest, r.value.2)
    {
      ghost var l0, keys := L(), Keys(DueOf(sells, latest)) + Keys(DueOf(buys, latest));
      mid := map[];
      BothBatches(L(), plan, sells, buys);
      DueBatch(plan.run, sells, latest);
      DueBatch(plan.run, buys, latest);
      ReadRows(L(), plan.run, sells, latest, Keys(sells) + Keys(buys));
      ReadRows(L(), plan.run, buys, latest, Keys(sells) + Keys(buys));
      var first := PlanPhase(plan.run, plan.session, sells, latest, map[]);
      StepsInWidens(Keys(DueOf(sells, latest)), keys, l0, O(), L(), O());
      if !first.Ok? {
        return Crashed, mid;
      }
      var (dueSells, answers) := first.value;
      mid := answers;
      PlanningDone(L(), O(), plan.run, plan.session, sells, latest, dueSells, map[], answers);
      StepsInWidens(Keys(DueOf(sells, latest)), Keys(sells), l0, O(), L(), O());
      OtherSideUntouched(l0, O(), L(), plan.run, sells, buys, latest);
      ghost var l1 := L();
      var second := PlanPhase(plan.run, plan.session, buys, latest, answers);
      StepsInWidens(Keys(DueOf(buys, latest)), keys, l1, O(), L(), O());
      StepsInTransitive(keys, l0, O(), l1, O(), L(), O());
      if !second.Ok? {
        return Crashed, mid;
      }
      PlanningDone(L(), O(), plan.run, plan.session, buys, latest, second.value.0, answers, second.value.1);
      OtherSidePending(l1, O(), L(), O(), plan.run, second.value.0, dueSells);
      r := Ok((dueSells, second.value.0, second.value.1));
    }

    /** Send what is due, sells first. */
    method SubmitBoth(run: string, session: string, sells: seq<Trade>, buys: seq<Trade>, answers: Answers)
      returns (r: Exit<Answers>, ghost mid: Answers, ghost os1: seq<Order>, ghost sold: Phase, ghost bought: Phase)
      requires Valid() && OpenOnly(L(), run, session) && AllFundable(buys) && TickersOf(sells) !! TickersOf(buys)
      requires AllPending(L(), O(), run, sells) && AllPending(L(), O(), run, buys)
      requires OneSide(Keys(sells), SELL) && OneSide(Keys(buys), BUY)
      requires settings.orderStatusTimeout >= 1 && StandardRules(settings.pricing.rules)
      modifies store, store.disk, broker
      ensures Valid() && OpenOnly(L(), run, session) && !r.NotConfirmed?
      ensures StepsIn(Keys(sells) + Keys(buys), old(L()), old(O()), L(), O())
      ensures r.Ok? ==> AllAnswered(os1, mid, sells) && KeepsAnswers(answers, mid, TickersOf(sells))
      ensures r.Ok? ==> AllAnswered(O(), r.value, buys) && KeepsAnswers(mid, r.value, TickersOf(buys))
      ensures r.Ok? ==> GrowsIn(Keys(buys), os1, O())
      ensures SellsFirst(old(O()), O())
      ensures r.Ok? ==> PhaseRan(sold, SELL, settings, outside, r.value) && sold.due == sells
      ensures r.Ok? ==> AllSaid(L(), sells, r.value)
      ensures r.Ok? ==> PhaseRan(bought, BUY, settings, outside, r.value) && bought.due == buys
      ensures r.Ok? ==> AllSaid(L(), buys, r.value)
      ensures r.Ok? ==> SentOnly(old(O()), O(), sold.sent, bought.sent)
      ensures r.Raised? ==> SubmissionFails(settings, outside)
    {
      ghost var l0, o0, keys := L(), O(), Keys(sells) + Keys(buys);
      mid, os1, bought := map[], o0, Unpriced(buys);
      var first: Exit<Answers>;
      first, sold := SubmitPhase(run, session, sells, answers);
      StepsInWidens(Keys(sells), keys, l0, o0, L(), O());
      LaterReflexive(O());
      if !first.Ok? {
        SellsThenBuys(Keys(sells), Keys(buys), o0, O(), O());
        return first.PropagateFailure(), mid, os1, sold, bought;
      }
      mid, os1 := first.value, O();
      ghost var l1 := L();
      OtherSidePending(l0, o0, l1, os1, run, sells, buys);
      r, bought := SubmitBuys(run, session, buys, first.value);
      StepsInWidens(Keys(buys), keys, l1, os1, L(), O());
      StepsInTransitive(keys, l0, o0, l1, os1, L(), O());
      SellsThenBuys(Keys(sells), Keys(buys), o0, os1, O());
      if r.Ok? {
        SentBySide(Keys(sells), Keys(buys), o0, os1, O(), sold.sent, bought.sent);
        SellsStand(sold, settings, outside, run, buys,
                   l1, os1, L(), O(), mid, r.value);
      }
    }

    /** Submit a plan of a run all of whose open rows are its own.  However far it gets, sells go out
        before buys, what reached the broker before is left alone, and nothing goes out for a trade
        whose row says that it may have; if it returns, every planned trade has its answer in plan
        order, and `trace` tells how both phases came to it. */
    method SubmitPlan(plan: Plan) returns (r: Exit<seq<OrderResult>>, ghost trace: PlanTrace)
      requires Valid() && OpenOnly(L(), plan.run, plan.session) && Executable(plan)
      requires settings.orderStatusTimeout >= 1 && StandardRules(settings.pricing.rules)
      modifies store, store.disk, broker
      ensures Valid() && OpenOnly(L(), plan.run, plan.session) && !r.NotConfirmed?
      ensures OnlyResubmits(old(L()), old(O()), L(), O()) && Follows(old(L()), old(O()), L(), O())
      ensures SellsFirst(old(O()), O()) && KeepsGuard(old(O()), O()) && NewFirsts(old(O()), O(), plan.run)
      ensures r.Ok? ==> AnswersPlan(old(L()), L(), O(), plan, r.value)
      ensures r.Ok? ==> CarriedOut(plan, old(L()), old(O()), L(), O(), r.value, trace, settings, outside)
      ensures r.Raised? ==> SubmissionFails(settings, outside)
    {
      ghost var l0, o0 := L(), O();
      var sells, buys, latest := TagPlan(plan);
      PlanKeys(l0, plan, sells, buys, latest);
      r, trace := WorkPlan(plan, sells, buys, latest);
      PlanSteps(Keys(DueOf(sells, latest)) + Keys(DueOf(buys, latest)), plan.run, l0, o0, L(), O());
    }

    /** Work on the tagged plan, and put the answers in plan order. */
    method WorkPlan(plan: Plan, sells: seq<Trade>, buys: seq<Trade>, latest: Ledger)
      returns (r: Exit<seq<OrderResult>>, ghost trace: PlanTrace)
      requires Valid() && OpenOnly(L(), plan.run, plan.session) && Executable(plan)
      requires BothTagged(L(), plan, sells, buys) && LatestOf(L(), latest, Keys(sells) + Keys(buys))
      requires settings.orderStatusTimeout >= 1 && StandardRules(settings.pricing.rules)
      modifies store, store.disk, broker
      ensures Valid() && OpenOnly(L(), plan.run, plan.session) && !r.NotConfirmed?
      ensures StepsIn(Keys(DueOf(sells, latest)) + Keys(DueOf(buys, latest)), old(L()), old(O()), L(), O())
      ensures SellsFirst(old(O()), O())
      ensures r.Ok? ==> AnswersPlan(old(L()), L(), O(), plan, r.value)
      ensures r.Ok? ==> CarriedOut(plan, old(L()), old(O()), L(), O(), r.value, trace, settings, outside)
      ensures r.Raised? ==> SubmissionFails(settings, outside)
    {
      ghost var l0, o0 := L(), O();
      var done: Exit<Answers>;
      ghost var sold, bought;
      done, sold, bought := WorkBoth(plan, sells, buys, latest);
      trace := PlanTrace(sold, bought, if done.Ok? then done.value else map[]);
      if !done.Ok? {
        return done.PropagateFailure(), trace;
      }
      PlanWorked(plan, l0, o0, L(), O(), sells, buys, latest, trace, settings, outside);
      r := Ok(AnswersOf(plan.trades, done.value));
    }

    /** Plan both sides, then send what is due. */
    method WorkBoth(plan: Plan, sells: seq<Trade>, buys: seq<Trade>, latest: Ledger)
      returns (r: Exit<Answers>, ghost sold: Phase, ghost bought: Phase)
      requires Valid() && OpenOnly(L(), plan.run, plan.session) && Executable(plan)
      requires BothTagged(L(), plan, sells, buys) && LatestOf(L(), latest, Keys(sells) + Keys(buys))
      requires settings.orderStatusTimeout >= 1 && StandardRules(settings.pricing.rules)
      modifies store, store.disk, broker
      ensures Valid() && OpenOnly(L(), plan.run, plan.session) && !r.NotConfirmed?
      ensures StepsIn(Keys(DueOf(sells, latest)) + Keys(DueOf(buys, latest)), old(L()), old(O()), L(), O())
      ensures SellsFirst(old(O()), O())
      ensures r.Ok? ==> forall t | t in plan.trades ::
                t.ticker in r.value && AnswersTrade(old(L()), L(), O(), plan.run, t, r.value[t.ticker])
      ensures r.Ok? ==> PhaseRan(sold, SELL, settings, outside, r.value) && sold.due == DueOf(sells, latest)
      ensures r.Ok? ==> AllSaid(L(), sold.due, r.value)
      ensures r.Ok? ==> PhaseRan(bought, BUY, settings, outside, r.value) && bought.due == DueOf(buys, latest)
      ensures r.Ok? ==> AllSaid(L(), bought.due, r.value)
      ensures r.Ok? ==> SentOnly(old(O()), O(), sold.sent, bought.sent)
      ensures r.Raised? ==> SubmissionFails(settings, outside)
    {
      ghost var l0, o0 := L(), O();
      ghost var keys, mid, sent := Keys(DueOf(sells, latest)) + Keys(DueOf(buys, latest)), map[], map[];
      PlanKeys(l0, plan, sells, buys, latest);
      sold, bought := Unpriced([]), Unpriced([]);
      var planned: Exit<(seq<Trade>, seq<Trade>, Answers)>;
      planned, mid := PlanBoth(plan, sells, buys, latest);
      if !planned.Ok? {
        return Crashed, sold, bought;
      }
      var (dueSells, dueBuys, answers) := planned.value;
      ghost var l1, o1, os1 := L(), O(), O();
      r, sent, os1, sold, bought := SubmitBoth(plan.run, plan.session, dueSells, dueBuys, answers);
      StepsInTransitive(keys, l0, o0, l1, o1, L(), O());
      if r.Ok? {
        PlanFinished(l0, o0, L(), o1, os1, O(), plan, sells, buys, latest, mid, answers, sent, r.value);
      }
    }

    // ---- reconciliation ----

    /** `e` is the open row under its key. */
    ghost predicate Holds(e: Entry)
      reads store, store.disk, broker
    {
      Valid() && e.key in L() && L()[e.key] == e && !e.Terminal()
    }

    /** Whether a fresh quote allows a replacement price. */
    method FreshReplaceLimit(key: Ref) returns (r: Exit<bool>)
      ensures !r.NotConfirmed? && if r.Ok? then outside.requoted(key) == r else !outside.requoted(key).Ok?
    {
      r := if outside.requoted(key).NotConfirmed? then Raised else outside.requoted(key);
    }

    /** The second half of a replace, made by a later pass.  `cancelled` is the row with the report of
        the cancelled original; nothing is written here. */
    method ResumeReplacement(e: Entry, cancelled: Entry, ref: Ref, ghost s: Snapshot, ghost j: nat)
      returns (r: Exit<Option<Entry>>)
      requires Holds(e) && e.replacement == Some(ref) && cancelled == e.WithSnapshot(s)
      requires InFamily(O(), e.key, j) && O()[j].ref == e.key == s.ref && IsCancelled(O()[j].status)
      requires s.filled == O()[j].filled && s.remaining == O()[j].total - O()[j].filled
      modifies broker
      ensures Valid() && !r.NotConfirmed? && StepsIn(Both(e.key), L(), old(O()), L(), O())
      ensures r.Ok? && r.value.Some? ==> r.value.value.key == e.key && Admissible(L(), O(), r.value.value)
                                         && r.value.value.orderRef == ref && r.value.value.replacement == None
      ensures r == Ok(None) ==> O() == old(O())
      ensures !Resumable(cancelled, now, settings.cancelAfter) ==> r == Ok(None)
      ensures r.Ok? ==> ResumesAs(e, cancelled, r.value, settings, outside, now)
      ensures r.Raised? ==> CanFail(e.key, O(), outside)
      ensures ReservationUnused(e, old(O())) ==> KeepsGuard(old(O()), O())
      ensures Firsts(O()) == Firsts(old(O()))
    {
      StepsInReflexive(Both(e.key), L(), O());
      if !Resumable(cancelled, now, settings.cancelAfter) {
        return Ok(None);
      }
      var priced :- FreshReplaceLimit(e.key);
      if !priced {
        return Ok(None);
      }
      CancelledLeft(L(), O(), e, s, j);
      var snapshot, n := PlaceReserved(e, ref, Outstanding(cancelled), j);
      if !snapshot.Ok? {
        return snapshot.PropagateFailure();
      }
      ResumedRow(L(), O(), e, cancelled, s, snapshot.value, n, now);
      r := Ok(Some(Resumed(cancelled, ref, snapshot.value, now)));
    }

    /** submit_replacement under the reserved ref: afterwards it is the only live order of its family. */
    method PlaceReserved(e: Entry, ref: Ref, quantity: real, ghost j: nat) returns (r: Exit<Snapshot>, ghost n: nat)
      requires Holds(e) && e.replacement == Some(ref) && ref == Rep(e.key, 1)
      requires InFamily(O(), e.key, j) && O()[j].ref == e.key && IsCancelled(O()[j].status)
      requires quantity + O()[j].filled <= O()[j].total
      modifies broker
      ensures Holds(e) && !r.NotConfirmed? && StepsIn(Both(e.key), L(), old(O()), L(), O())
      ensures r.Ok? ==>
                && e.replaceCount == 1 && InFamily(O(), e.key, n) && O()[n].ref == ref
                && (PlacementSnapshot(O()[n], n, r.value) || OpenSnapshotOf(O()[n], n, r.value))
                && forall i | InFamily(O(), e.key, i) && i != n :: !Live(O()[i])
      ensures r.Raised? ==> outside.acting(e.key).Raises? || quantity <= QTY_EPS
      ensures ReservationUnused(e, old(O())) ==> KeepsGuard(old(O()), O())
      ensures Firsts(O()) == Firsts(old(O()))
    {
      ghost var o0 := O();
      n := |o0|;
      r := broker.SubmitReplacement(ref, quantity, outside.acting(e.key));
      ReservedOutcome(L(), o0, O(), e, quantity, j);
      if r.Ok? && !(Placed(o0, O(), ref, quantity) && NoneLive(O()[..|o0|], ref)) {
        n := OnlyLive(O(), e.key, ref, r.value);
      }
    }

    /** Request the cancel of the order that `updated` names.  A row that could be written over the open row
        `e` still can afterwards. */
    method CancelAt(e: Entry, ghost updated: Entry, id: nat, fate: Step) returns (r: Exit<bool>)
      requires Holds(e) && updated.key == e.key && Admissible(L(), O(), updated) && updated.orderId == Some(id)
      modifies broker
      ensures Holds(e) && !r.NotConfirmed? && StepsIn(Both(e.key), L(), old(O()), L(), O())
      ensures Admissible(L(), O(), updated) && |O()| == |old(O())| && KeepsGuard(old(O()), O())
      ensures Firsts(O()) == Firsts(old(O()))
      ensures r == Ok(true) ==> id in broker.requested
      ensures r == Ok(false) ==> Gone(O(), id)
      ensures r.Raised? ==> fate.Raises?
    {
      r := broker.CancelOrder(id, fate);
      InvDriftSteps(Both(e.key), L(), old(O()), O());
      GuardedDrifts(old(O()), O());
      RowOKDrifts(e.key, updated, old(O()), O());
    }

    /** Follow up on an order that is working: cancel it, or replace it once.  `updated` reports it
        over the open row `e` and is not written yet; a recovered row is left alone. */
    method ApplyTimeoutPolicy(e: Entry, updated: Entry) returns (r: Exit<(Entry, Action)>)
      requires Holds(e) && updated.key == e.key && Admissible(L(), O(), updated)
      modifies store, store.disk, broker
      ensures Valid() && !r.NotConfirmed? && StepsIn(Both(e.key), old(L()), old(O()), L(), O())
      ensures r.Ok? ==> r.value.0.key == e.key && Admissible(L(), O(), r.value.0)
      ensures !CancelDue(updated, settings, now) && !ReplaceDue(updated, settings, now) ==>
                r == Ok((updated, NoAction)) && L() == old(L()) && O() == old(O())
      ensures r.Ok? ==> FollowedUp(updated, r.value.0, r.value.1, O(), settings, outside, now)
      ensures r.Ok? && r.value.1.Cancel? ==> updated.orderId.value in broker.requested
      ensures r.Ok? && IsReplace(r.value.1) ==> e.key in L() && L()[e.key] == Intent(updated)
      ensures r.Raised? ==> CanFail(e.key, O(), outside) || updated.remaining <= QTY_EPS
      ensures KeepsGuard(old(O()), O())
      ensures Firsts(O()) == Firsts(old(O()))
    {
      StepsInReflexive(Both(e.key), L(), O());
      if updated.recovered || !IsWorking(updated.state) || updated.submittedAt.None? || updated.filled > QTY_EPS {
        return Ok((updated, NoAction));
      }
      var elapsed := now - updated.submittedAt.value;
      if elapsed >= settings.cancelAfter {
        r := CancelWorking(e, updated);
      } else if settings.autoReplace && elapsed >= settings.replaceAfter && updated.replaceCount < 1 && updated.orderId.Some? {
        r := ReplaceWorking(e, updated);
      } else {
        r := Ok((updated, NoAction));
      }
    }

    /** Request the cancel of an order that has waited too long. */
    method CancelWorking(e: Entry, updated: Entry) returns (r: Exit<(Entry, Action)>)
      requires Holds(e) && updated.key == e.key && Admissible(L(), O(), updated) && IsWorking(updated.state)
      modifies broker
      ensures Valid() && !r.NotConfirmed? && StepsIn(Both(e.key), L(), old(O()), L(), O())
      ensures r.Ok? ==> r.value.0.key == e.key && Admissible(L(), O(), r.value.0)
      ensures updated.orderId.None? ==> r == Ok((updated, NoAction)) && O() == old(O())
      ensures r.Ok? ==>
                if r.value.1.NoAction? then
                  r.value.0 == updated && (updated.orderId.Some? ==> Gone(O(), updated.orderId.value))
                else
                  && r.value == (CancelPending(updated), Action.Cancel)
                  && updated.orderId.Some? && updated.orderId.value in broker.requested
      ensures r.Raised? ==> outside.acting(e.key).Raises?
      ensures KeepsGuard(old(O()), O())
      ensures Firsts(O()) == Firsts(old(O()))
    {
      StepsInReflexive(Both(e.key), L(), O());
      if updated.orderId.None? {
        return Ok((updated, NoAction));
      }
      var requested :- CancelAt(e, updated, updated.orderId.value, outside.acting(e.key));
      if !requested {
        return Ok((updated, NoAction));
      }
      var pending := CancelPending(updated);
      RestatedRow(L(), O(), updated, pending);
      r := Ok((pending, Action.Cancel));
    }

    method WriteOpen(row: Entry) returns (r: Step)
      requires Valid() && Admissible(L(), O(), row) && !row.Terminal()
      modifies store, store.disk
      ensures Valid() && !r.Raises? && StepsIn(Both(row.key), old(L()), O(), L(), O())
      ensures r.Done? ==> Holds(row)
    {
      ghost var before := L();
      r := Write(row);
      StepsInWidens({row.key}, Both(row.key), before, O(), L(), O());
    }

    /** Reserve the replacement's ref, then cancel and replace, if a fresh quote gives a price. */
    method ReplaceWorking(e: Entry, updated: Entry) returns (r: Exit<(Entry, Action)>)
      requires Holds(e) && updated.key == e.key && Admissible(L(), O(), updated)
      requires IsWorking(updated.state) && updated.replaceCount == 0 && updated.orderId.Some?
      modifies store, store.disk, broker
      ensures Valid() && !r.NotConfirmed? && StepsIn(Both(e.key), old(L()), old(O()), L(), O())
      ensures r.Ok? ==> r.value.0.key == e.key && Admissible(L(), O(), r.value.0)
      ensures r.Ok? ==>
                if outside.requoted(e.key) == Ok(true) then ReplaceEnds(updated, r.value.0, r.value.1, now) && IsReplace(r.value.1)
                else r.value == (updated, NoAction) && outside.requoted(e.key) == Ok(false)
      ensures O() == old(O()) || (e.key in L() && L()[e.key] == Intent(updated))
      ensures r.Ok? && IsReplace(r.value.1) ==> e.key in L() && L()[e.key] == Intent(updated)
      ensures r.Raised? ==> CanFail(e.key, O(), outside) || updated.remaining <= QTY_EPS
      ensures KeepsGuard(old(O()), O())
      ensures Firsts(O()) == Firsts(old(O()))
    {
      ghost var l0, o0 := L(), O();
      StepsInReflexive(Both(e.key), L(), O());
      var priced :- FreshReplaceLimit(e.key);
      if !priced {
        return Ok((updated, NoAction));
      }
      var intent := Intent(updated);
      IntentRow(L(), O(), updated);
      :- WriteOpen(intent);
      ghost var l1, o1 := L(), O();
      r := CancelAndReplace(intent, updated);
      StepsInTransitive(Both(e.key), l0, o0, l1, o1, L(), O());
    }

    /** With the reservation durable, cancel the original and place the replacement. */
    method CancelAndReplace(intent: Entry, updated: Entry) returns (r: Exit<(Entry, Action)>)
      requires Holds(intent) && intent == Intent(updated) && updated.replaceCount == 0 && updated.replacement.None?
      requires updated.orderRef == intent.key && updated.orderId.Some?
      requires NoReplacements(O(), intent.key) && InFamily(O(), intent.key, updated.orderId.value)
      modifies broker
      ensures Valid() && !r.NotConfirmed? && StepsIn(Both(intent.key), L(), old(O()), L(), O())
      ensures KeepsGuard(old(O()), O())
      ensures Firsts(O()) == Firsts(old(O()))
      ensures r.Ok? ==>
                r.value.0.key == intent.key && Admissible(L(), O(), r.value.0) && ReplaceEnds(updated, r.value.0, r.value.1, now)
      ensures r.Raised? ==> CanFail(intent.key, O(), outside) || updated.remaining <= QTY_EPS
    {
      var replaced := ReplaceReserved(intent, updated.orderId.value, if updated.remaining != 0.0 then updated.remaining else updated.quantity);
      r := AfterReplace(intent, updated, replaced);
    }

    /** The row to record for the outcome of replace_order. */
    method AfterReplace(intent: Entry, updated: Entry, replaced: Exit<Snapshot>) returns (r: Exit<(Entry, Action)>)
      requires Holds(intent) && intent == Intent(updated) && updated.replaceCount == 0 && updated.replacement.None?
      requires replaced.Ok? ==> Admissible(L(), O(), Retargeted(intent, replaced.value, None, 1))
      requires replaced.Ok? ==> replaced.value.ref == updated.orderRef || replaced.value.ref == Rep(intent.key, 1)
      ensures !r.NotConfirmed?
      ensures r.Ok? ==>
                r.value.0.key == intent.key && Admissible(L(), O(), r.value.0) && ReplaceEnds(updated, r.value.0, r.value.1, now)
      ensures r.Ok? ==>
                match replaced
                case NotConfirmed => r.value.1.ReplaceDeferred?
                case Ok(s) =>
                  && r.value.1 == (if s.ref == updated.orderRef then Closed else Action.Replace)
                  && r.value.0 == Retargeted(intent, s, None, 1).(submittedAt := r.value.0.submittedAt, recovered := r.value.0.recovered)
                case _ => false
      ensures !r.Ok? ==> !replaced.Ok? && r == replaced.PropagateFailure()
    {
      if replaced.NotConfirmed? {
        var deferred := Deferred(updated);
        SelfAdmissible(L(), O(), intent);
        RestatedRow(L(), O(), intent, deferred);
        return Ok((deferred, ReplaceDeferred));
      }
      if !replaced.Ok? {
        return replaced.PropagateFailure();
      }
      var s := replaced.value;
      var row :=
        if s.ref != intent.replacement.value then updated.WithSnapshot(s).(replaceCount := intent.replaceCount)
        else intent.(orderRef := s.ref, replacement := None).WithSnapshot(s).(submittedAt := Some(now));
      CosmeticRow(L(), O(), Retargeted(intent, s, None, 1), row);
      r := Ok((row, if s.ref != intent.replacement.value then Closed else Action.Replace));
    }

    /** replace_order with the reservation durable: whatever the broker reports may be recorded. */
    method ReplaceReserved(intent: Entry, id: nat, quantity: real) returns (r: Exit<Snapshot>)
      requires Holds(intent) && intent.replacement == Some(Rep(intent.key, 1)) && intent.orderRef == intent.key
      requires NoReplacements(O(), intent.key) && InFamily(O(), intent.key, id)
      modifies broker
      ensures Holds(intent) && StepsIn(Both(intent.key), L(), old(O()), L(), O())
      ensures r.Ok? ==> r.value.ref == intent.key || r.value.ref == Rep(intent.key, 1)
      ensures r.Ok? ==> Admissible(L(), O(), Retargeted(intent, r.value, None, 1))
      ensures r.Raised? ==> CanFail(intent.key, O(), outside) || quantity <= QTY_EPS
      ensures KeepsGuard(old(O()), O())
      ensures Firsts(O()) == Firsts(old(O()))
    {
      ghost var o0 := O();
      var key := intent.key;
      assert RowOK(key, intent, o0);
      r := broker.ReplaceOrder(id, quantity, intent.replacement.value, outside.acting(key));
      StaysUnreplaced(o0, O(), key);
      GuardAfterReplace(o0, O(), key, Replaced(o0, O(), id, Rep(key, 1)));
      if Replaced(o0, O(), id, Rep(key, 1)) {
        ReservedPlaces(L(), o0, O(), intent, id, O()[|o0|].total);
        if r.Ok? {
          PlacedIsReported(o0, O(), key, id, r.value);
          ReplacementRow(L(), O(), intent, r.value, |o0|);
        }
      } else {
        InvDriftSteps(Both(key), L(), o0, O());
        if r.Ok? {
          FilledOriginalRow(L(), O(), intent, r.value, id);
        }
      }
    }
 
    /** Write the outcome of one row's reconciliation. */
    method Conclude(e: Entry, row: Entry, action: Action, matched: bool) returns (r: Exit<ReconcileUpdate>)
      requires Valid() && row.key == e.key && Admissible(L(), O(), row)
      modifies store, store.disk
      ensures Valid() && (r.Ok? || r.Crashed?) && StepsIn(Both(e.key), old(L()), O(), L(), O())
      ensures L() == old(L())[e.key := row] || (r.Crashed? && L() == old(L()))
      ensures r.Ok? ==> r.value == ReconcileUpdate(row, action, matched) && Concluded(e, r.value)
    {
      ghost var before := L();
      var written := Write(row);
      StepsInWidens({row.key}, Both(row.key), before, O(), L(), O());
      r := if written.Done? then Ok(ReconcileUpdate(row, action, matched)) else written.PropagateFailure();
    }

    /** The update is what the ledger now says. */
    ghost predicate Concluded(e: Entry, update: ReconcileUpdate)
      reads store.disk
    {
      update.entry.key == e.key && e.key in L() && L()[e.key] == update.entry
    }

    /** The broker was asked to cancel the order of the update's row. */
    predicate CancelRequested(update: ReconcileUpdate)
      reads broker
    {
      update.entry.orderId.Some? && update.entry.orderId.value in broker.requested
    }

    /** Follow up on a reported row, then write it. */
    method FollowUp(e: Entry, updated: Entry) returns (r: Exit<ReconcileUpdate>)
      requires Holds(e) && updated.key == e.key && Admissible(L(), O(), updated)
      modifies store, store.disk, broker
      ensures Valid() && !r.NotConfirmed? && StepsIn(Both(e.key), old(L()), old(O()), L(), O())
      ensures r.Ok? ==> r.value.matched && Concluded(e, r.value)
      ensures r.Ok? ==> FollowedUp(updated, r.value.entry, r.value.action, O(), settings, outside, now)
      ensures r.Ok? && r.value.action.Cancel? ==> CancelRequested(r.value)
      ensures r.Raised? ==> CanFail(e.key, O(), outside) || updated.remaining <= QTY_EPS
      ensures KeepsGuard(old(O()), O())
      ensures Firsts(O()) == Firsts(old(O()))
    {
      ghost var l0, o0 := L(), O();
      var next := ApplyTimeoutPolicy(e, updated);
      r := WriteFollowUp(e, updated, next, l0, o0);
    }

    /** Write the outcome of the timeout policy. */
    method WriteFollowUp(e: Entry, ghost updated: Entry, next: Exit<(Entry, Action)>, ghost l0: Ledger,
                         ghost o0: seq<Order>)
      returns (r: Exit<ReconcileUpdate>)
      requires Valid() && !next.NotConfirmed? && StepsIn(Both(e.key), l0, o0, L(), O())
      requires KeepsGuard(o0, O()) && Firsts(O()) == Firsts(o0)
      requires next.Ok? ==> next.value.0.key == e.key && Admissible(L(), O(), next.value.0)
      requires next.Ok? ==> FollowedUp(updated, next.value.0, next.value.1, O(), settings, outside, now)
      requires next.Ok? && next.value.1.Cancel? ==> updated.orderId.value in broker.requested
      requires next.Raised? ==> CanFail(e.key, O(), outside) || updated.remaining <= QTY_EPS
      modifies store, store.disk
      ensures Valid() && !r.NotConfirmed? && StepsIn(Both(e.key), l0, o0, L(), O())
      ensures KeepsGuard(o0, O()) && Firsts(O()) == Firsts(o0)
      ensures r.Ok? ==> r.value.matched && Concluded(e, r.value)
      ensures r.Ok? ==> FollowedUp(updated, r.value.entry, r.value.action, O(), settings, outside, now)
      ensures r.Ok? && r.value.action.Cancel? ==> CancelRequested(r.value)
      ensures r.Raised? ==> CanFail(e.key, O(), outside) || updated.remaining <= QTY_EPS
    {
      if !next.Ok? {
        return next.PropagateFailure();
      }
      ghost var l1, o1 := L(), O();
      r := Conclude(e, next.value.0, next.value.1, true);
      StepsInTransitive(Both(e.key), l0, o0, l1, o1, L(), O());
    }

    /** The row becomes the row of its reserved replacement. */
    method Adopt(e: Entry, s: Snapshot, action: Action) returns (r: Exit<ReconcileUpdate>)
      requires Holds(e) && e.replacement == Some(s.ref) && Admissible(L(), O(), Retargeted(e, s, None, e.replaceCount))
      modifies store, store.disk
      ensures Valid() && (r.Ok? || r.Crashed?) && StepsIn(Both(e.key), old(L()), O(), L(), O())
      ensures r.Ok? ==> r.value == ReconcileUpdate(Retargeted(e, s, None, e.replaceCount), action, true)
      ensures r.Ok? ==> Concluded(e, r.value)
    {
      r := Conclude(e, e.(orderRef := e.replacement.value, replacement := None).WithSnapshot(s), action, true);
    }

    /** The broker lists the row's order, or its reserved replacement, as open. */
    method ReconcileOpen(e: Entry, s: Snapshot, replacement: bool, ghost seen: seq<Order>, ghost i: nat)
      returns (r: Exit<ReconcileUpdate>)
      requires Holds(e) && OrdersOK(seen) && Since(seen, O(), e.key)
      requires i < |seen| && InFamily(seen, e.key, i) && OpenSnapshotOf(seen[i], i, s)
      requires Live(seen[i]) || FamilyIdle(seen, e.key)
      requires if replacement then e.replacement == Some(s.ref) else s.ref == e.orderRef
      modifies store, store.disk, broker
      ensures Valid() && !r.NotConfirmed? && StepsIn(Both(e.key), old(L()), old(O()), L(), O())
      ensures r.Ok? ==> r.value.matched && Concluded(e, r.value)
      ensures r.Ok? ==> OpenConcluded(e, Matched(s, replacement), r.value, O(), settings, outside, now)
      ensures r.Ok? && r.value.action.Cancel? ==> CancelRequested(r.value)
      ensures r.Raised? ==> CanFail(e.key, O(), outside)
      ensures ResumeSafe(e, Matched(s, replacement), old(O())) ==> KeepsGuard(old(O()), O())
      ensures Firsts(O()) == Firsts(old(O()))
    {
      if replacement {
        OpenRow(L(), O(), seen, e, s, i, None);
        r := Adopt(e, s, Action.Replace);
        return;
      }
      r := ReconcileNamed(e, s, seen, i);
    }

    /** The broker lists the very order the row names. */
    method ReconcileNamed(e: Entry, s: Snapshot, ghost seen: seq<Order>, ghost i: nat)
      returns (r: Exit<ReconcileUpdate>)
      requires Holds(e) && OrdersOK(seen) && Since(seen, O(), e.key) && s.ref == e.orderRef
      requires i < |seen| && InFamily(seen, e.key, i) && OpenSnapshotOf(seen[i], i, s)
      requires Live(seen[i]) || FamilyIdle(seen, e.key)
      modifies store, store.disk, broker
      ensures Valid() && !r.NotConfirmed? && StepsIn(Both(e.key), old(L()), old(O()), L(), O())
      ensures r.Ok? ==> r.value.matched && Concluded(e, r.value)
      ensures r.Ok? ==> NamedConcluded(e, e.WithSnapshot(s), r.value, O(), settings, outside, now)
      ensures r.Ok? && r.value.action.Cancel? ==> CancelRequested(r.value)
      ensures r.Raised? ==> CanFail(e.key, O(), outside)
      ensures ResumeSafe(e, Matched(s, false), old(O())) ==> KeepsGuard(old(O()), O())
      ensures Firsts(O()) == Firsts(old(O()))
    {
      var updated := e.WithSnapshot(s);
      if e.replacement.Some? && updated.state.CANCELLED? {
        OpenRow(L(), O(), seen, e, s, i, None);
        StaysCancelled(L(), O(), e, seen, s, i);
        r := ResumeOrClose(e, updated, s, i, NoAction);
        return;
      }
      if e.replacement.Some? && IsWorking(updated.state) {
        updated := updated.(replacement := None);
      }
      OpenRow(L(), O(), seen, e, s, i, updated.replacement);
      ghost var o0 := O();
      r := FollowUp(e, updated);
      FewLeft(seen, o0, O(), e, s, i, outside);
    }

    /** The original of a reserved replacement is cancelled: resume the replacement, or close. */
    method ResumeOrClose(e: Entry, cancelled: Entry, ghost s: Snapshot, ghost j: nat, action: Action)
      returns (r: Exit<ReconcileUpdate>)
      requires Holds(e) && e.replacement.Some? && cancelled == e.WithSnapshot(s)
      requires InFamily(O(), e.key, j) && O()[j].ref == e.key == s.ref && IsCancelled(O()[j].status)
      requires s.filled == O()[j].filled && s.remaining == O()[j].total - O()[j].filled
      requires Admissible(L(), O(), cancelled.(replacement := None))
      modifies store, store.disk, broker
      ensures Valid() && !r.NotConfirmed? && StepsIn(Both(e.key), old(L()), old(O()), L(), O())
      ensures r.Ok? ==> r.value.matched && Concluded(e, r.value)
      ensures r.Ok? ==> ResumedOrClosed(e, cancelled, action, r.value, settings, outside, now)
      ensures r.Raised? ==> CanFail(e.key, O(), outside)
      ensures !Resumable(cancelled, now, settings.cancelAfter) ==> O() == old(O())
      ensures ReservationUnused(e, old(O())) ==> KeepsGuard(old(O()), O())
      ensures Firsts(O()) == Firsts(old(O()))
    {
      ghost var l0, o0 := L(), O();
      var resumed := ResumeReplacement(e, cancelled, e.replacement.value, s, j);
      if !resumed.Ok? {
        return resumed.PropagateFailure();
      }
      r := ConcludeResumed(e, cancelled, resumed.value, action, ReservationUnused(e, o0), l0, o0);
    }

    /** Write the row of the resumed replacement, or of the cancelled original. */
    method ConcludeResumed(e: Entry, cancelled: Entry, resumed: Option<Entry>, action: Action, ghost safe: bool,
                           ghost l0: Ledger, ghost o0: seq<Order>)
      returns (r: Exit<ReconcileUpdate>)
      requires Valid() && e.replacement.Some? && StepsIn(Both(e.key), l0, o0, L(), O())
      requires (safe ==> KeepsGuard(o0, O())) && Firsts(O()) == Firsts(o0)
      requires ResumesAs(e, cancelled, resumed, settings, outside, now)
      requires match resumed
               case Some(row) => row.key == e.key && Admissible(L(), O(), row)
               case None => cancelled.key == e.key && Admissible(L(), O(), cancelled.(replacement := None))
      modifies store, store.disk
      ensures Valid() && (r.Ok? || r.Crashed?) && StepsIn(Both(e.key), l0, o0, L(), O())
      ensures (safe ==> KeepsGuard(o0, O())) && Firsts(O()) == Firsts(o0)
      ensures O() == old(O())
      ensures r.Ok? ==> r.value.matched && Concluded(e, r.value)
      ensures r.Ok? ==> ResumedOrClosed(e, cancelled, action, r.value, settings, outside, now)
    {
      ghost var l1, o1 := L(), O();
      var row := if resumed.Some? then resumed.value else cancelled.(replacement := None);
      r := Conclude(e, row, if resumed.Some? then Action.Replace else action, true);
      StepsInTransitive(Both(e.key), l0, o0, l1, o1, L(), O());
    }

    /** The broker does not list anything of the row as open. */
    method ReconcileGone(e: Entry, completed: seq<Snapshot>, ghost seen: seq<Order>) returns (r: Exit<ReconcileUpdate>)
      requires Holds(e) && CompletedReport(seen, completed) && Later(seen, O()) && Quiet(O(), e.key)
      modifies store, store.disk, broker
      ensures Valid() && !r.NotConfirmed? && StepsIn(Both(e.key), old(L()), old(O()), L(), O())
      ensures r.Ok? ==> ClosedByHistory(e, MatchSnapshot(e, completed), r.value, settings, outside, now)
      ensures r.Ok? ==> Concluded(e, r.value)
      ensures r.Raised? ==> CanFail(e.key, O(), outside)
      ensures MatchSnapshot(e, completed).NoMatch? ==>
                && O() == old(O()) && !r.Raised?
                && e.key in L() && (L()[e.key] == e || L()[e.key] == CloseUnreported(e))
      ensures ReservationUnused(e, old(O())) ==> KeepsGuard(old(O()), O())
      ensures Firsts(O()) == Firsts(old(O()))
    {
      var m := MatchSnapshot(e, completed);
      if m.Matched? {
        r := ReconcileCompleted(e, m.snapshot, m.replacement, completed, seen);
        return;
      }
      StepsInReflexive(Both(e.key), L(), O());
      if e.state.UNKNOWN? && e.raw.NotOpenUnverified? {
        return Ok(ReconcileUpdate(e, NoAction, false));
      }
      SelfAdmissible(L(), O(), e);
      RestatedRow(L(), O(), e, CloseUnreported(e));
      r := Conclude(e, CloseUnreported(e), Unverified, false);
    }

    /** Completed history has the row's order, or its reserved replacement. */
    method ReconcileCompleted(e: Entry, s: Snapshot, replacement: bool, ghost completed: seq<Snapshot>,
                              ghost seen: seq<Order>)
      returns (r: Exit<ReconcileUpdate>)
      requires Holds(e) && CompletedReport(seen, completed) && Later(seen, O()) && Quiet(O(), e.key)
      requires MatchSnapshot(e, completed) == Matched(s, replacement)
      modifies store, store.disk, broker
      ensures Valid() && !r.NotConfirmed? && StepsIn(Both(e.key), old(L()), old(O()), L(), O())
      ensures r.Ok? ==> r.value.matched && Concluded(e, r.value)
      ensures r.Ok? && replacement ==> Adopted(e, s, Closed, r.value)
      ensures r.Ok? && !replacement ==> DoneConcluded(e, e.WithSnapshot(s), r.value, settings, outside, now)
      ensures r.Raised? ==> CanFail(e.key, O(), outside)
      ensures ReservationUnused(e, old(O())) ==> KeepsGuard(old(O()), O())
      ensures Firsts(O()) == Firsts(old(O()))
    {
      ghost var i := CompletedMatch(L(), O(), seen, e, completed);
      CompletedRow(L(), O(), e, s, i);
      if replacement {
        r := Adopt(e, s, Closed);
        return;
      }
      r := CloseCompleted(e, s, i);
    }

    /** The very order the row names is done. */
    method CloseCompleted(e: Entry, s: Snapshot, ghost i: nat) returns (r: Exit<ReconcileUpdate>)
      requires Holds(e) && InFamily(O(), e.key, i) && CompletedSnapshotOf(O()[i], i, s) && s.ref == e.orderRef
      requires Admissible(L(), O(), Retargeted(e, s, None, e.replaceCount))
      modifies store, store.disk, broker
      ensures Valid() && !r.NotConfirmed? && StepsIn(Both(e.key), old(L()), old(O()), L(), O())
      ensures r.Ok? ==> r.value.matched && Concluded(e, r.value)
      ensures r.Ok? ==> DoneConcluded(e, e.WithSnapshot(s), r.value, settings, outside, now)
      ensures r.Raised? ==> CanFail(e.key, O(), outside)
      ensures ReservationUnused(e, old(O())) ==> KeepsGuard(old(O()), O())
      ensures Firsts(O()) == Firsts(old(O()))
    {
      var closed := e.WithSnapshot(s);
      if e.replacement.Some? && closed.state.CANCELLED? {
        CompletedCancelled(L(), O(), e, s, i);
        r := ResumeOrClose(e, closed, s, i, Closed);
      } else {
        r := Conclude(e, closed.(replacement := None), Closed, true);
      }
    }

    /** One open row against the reports of this pass. */
    method ReconcileEntry(e: Entry, open: seq<Snapshot>, completed: seq<Snapshot>, ghost seenOpen: seq<Order>,
                          ghost seenDone: seq<Order>)
      returns (r: Exit<ReconcileUpdate>)
      requires Holds(e)
      requires OpenReport(seenOpen, open) && OrdersOK(seenOpen) && Since(seenOpen, O(), e.key)
      requires CompletedReport(seenDone, completed) && Drifted(seenOpen, seenDone) && Later(seenDone, O())
      modifies store, store.disk, broker
      ensures Valid() && !r.NotConfirmed? && StepsIn(Both(e.key), old(L()), old(O()), L(), O())
      ensures ResumeSafe(e, MatchSnapshot(e, open), old(O())) ==> KeepsGuard(old(O()), O())
      ensures Firsts(O()) == Firsts(old(O()))
      ensures r.Ok? ==> RowConcluded(e, open, completed, r.value, O(), settings, outside, now) && Concluded(e, r.value)
      ensures r.Ok? && r.value.action.Cancel? ==> CancelRequested(r.value)
      ensures r.Raised? ==> CanFail(e.key, O(), outside)
      ensures MatchSnapshot(e, open).NoMatch? && MatchSnapshot(e, completed).NoMatch? ==>
                && O() == old(O()) && !r.Raised?
                && e.key in L() && (L()[e.key] == e || L()[e.key] == CloseUnreported(e))
    {
      var m := MatchSnapshot(e, open);
      if m.Matched? {
        r := ReconcileListed(e, m, open, seenOpen);
      } else {
        UnmatchedIsQuiet(L(), O(), seenOpen, e, open);
        r := ReconcileGone(e, completed, seenDone);
        if r.Ok? {
          HistoryNeverCancels(e, MatchSnapshot(e, completed), r.value, settings, outside, now);
        }
      }
    }

    method ReconcileListed(e: Entry, m: Match, ghost open: seq<Snapshot>, ghost seen: seq<Order>)
      returns (r: Exit<ReconcileUpdate>)
      requires Holds(e) && m == MatchSnapshot(e, open) && m.Matched?
      requires OpenReport(seen, open) && OrdersOK(seen) && Since(seen, O(), e.key)
      modifies store, store.disk, broker
      ensures Valid() && !r.NotConfirmed? && StepsIn(Both(e.key), old(L()), old(O()), L(), O())
      ensures ResumeSafe(e, m, old(O())) ==> KeepsGuard(old(O()), O())
      ensures Firsts(O()) == Firsts(old(O()))
      ensures r.Ok? ==> OpenConcluded(e, m, r.value, O(), settings, outside, now) && Concluded(e, r.value)
      ensures r.Ok? && r.value.action.Cancel? ==> CancelRequested(r.value)
      ensures r.Raised? ==> CanFail(e.key, O(), outside)
    {
      ghost var i := OpenMatch(L(), O(), seen, e, open);
      r := ReconcileOpen(e, m.snapshot, m.replacement, seen, i);
    }
 
    /** Reconcile every loaded row; one row's failure does not stop the others. */
    method ReconcileRows(rows: seq<Entry>, open: seq<Snapshot>, completed: seq<Snapshot>, historyFailed: bool,
                         ghost seenOpen: seq<Order>, ghost seenDone: seq<Order>)
      returns (r: Exit<seq<ReconcileUpdate>>)
      requires Valid() && OpenReport(seenOpen, open) && OrdersOK(seenOpen) && CompletedReport(seenDone, completed)
      requires Drifted(seenOpen, seenDone) && Later(seenDone, O())
      requires Queued(L(), O(), rows, 0, seenOpen)
      modifies store, store.disk, broker
      ensures Valid() && (r.Ok? || r.Crashed?)
      ensures StepsIn(RowRefs(rows), old(L()), old(O()), L(), O())
      ensures r.Ok? ==> |r.value| == |rows| && AbsenceStaysOpen(r.value)
      ensures r.Ok? ==> PassDone(Sweep(rows, open, completed, historyFailed, seenOpen, seenDone), r.value, L(), O(), settings, outside, now)
      ensures SweepGuarded(Sweep(rows, open, completed, historyFailed, seenOpen, seenDone)) ==> KeepsGuard(old(O()), O())
      ensures Firsts(O()) == Firsts(old(O()))
    {
      ghost var sweep := Sweep(rows, open, completed, historyFailed, seenOpen, seenDone);
      ghost var l0, o0 := L(), O();
      StepsInReflexive(RowRefs(rows), L(), O());
      var updates: seq<ReconcileUpdate> := [];
      for i := 0 to |rows|
        invariant |updates| == i && Sweeping(sweep, updates, l0, o0)
      {
        var update := ReconcileNext(rows, i, open, completed, historyFailed, sweep, updates, l0, o0);
        if !update.Ok? {
          return Crashed;
        }
        updates := updates + [update.value];
      }
      r := Ok(updates);
    }

    /** The first rows of the pass are done, with these updates; the rest are as they were loaded. */
    ghost predicate Sweeping(p: Sweep, updates: seq<ReconcileUpdate>, l0: Ledger, o0: seq<Order>)
      reads store, store.disk, broker
    {
      && Valid() && Swept(p, |updates|, l0, o0, L(), O())
      && AbsenceStaysOpen(updates) && PassDone(p, updates, L(), O(), settings, outside, now)
    }

    /** One row of the pass; without completed history nothing is concluded for an unmatched row. */
    method ReconcileNext(rows: seq<Entry>, i: nat, open: seq<Snapshot>, completed: seq<Snapshot>, historyFailed: bool,
                         ghost sweep: Sweep, ghost updates: seq<ReconcileUpdate>, ghost l0: Ledger, ghost o0: seq<Order>)
      returns (r: Exit<ReconcileUpdate>)
      requires i == |updates| < |rows| && Sweeping(sweep, updates, l0, o0)
      requires sweep == Sweep(rows, open, completed, historyFailed, sweep.seenOpen, sweep.seenDone)
      modifies store, store.disk, broker
      ensures Valid() && (r.Ok? || r.Crashed?)
      ensures r.Ok? ==> Sweeping(sweep, updates + [r.value], l0, o0)
      ensures r.Ok? && r.value.action.Cancel? ==> CancelRequested(r.value)
      ensures historyFailed && MatchSnapshot(rows[i], open).NoMatch? ==>
                r == Ok(ReconcileUpdate(rows[i], Error, false)) && L() == old(L()) && O() == old(O())
      ensures Swept(sweep, i + 1, l0, o0, L(), O())
    {
      ghost var l1, o1 := L(), O();
      if historyFailed && MatchSnapshot(rows[i], open).NoMatch? {
        r := Ok(ReconcileUpdate(rows[i], Error, false));
        SweptUnread(sweep, updates, l0, o0, l1, o1, r.value, settings, outside, now);
        return;
      }
      SweepMakesSafe(sweep, i, L(), O());
      r := ReconcileCaught(rows[i], open, completed, sweep.seenOpen, sweep.seenDone);
      SweptNext(sweep, i, l0, o0, l1, o1, L(), O());
      if r.Ok? {
        SweptRow(sweep, updates, l1, o1, L(), O(), r.value, settings, outside, now);
      }
    }

    /** An exception on one row is reported on that row. */
    method ReconcileCaught(e: Entry, open: seq<Snapshot>, completed: seq<Snapshot>, ghost seenOpen: seq<Order>,
                           ghost seenDone: seq<Order>)
      returns (r: Exit<ReconcileUpdate>)
      requires Holds(e)
      requires OpenReport(seenOpen, open) && OrdersOK(seenOpen) && Since(seenOpen, O(), e.key)
      requires CompletedReport(seenDone, completed) && Drifted(seenOpen, seenDone) && Later(seenDone, O())
      modifies store, store.disk, broker
      ensures Valid() && (r.Ok? || r.Crashed?) && StepsIn(Both(e.key), old(L()), old(O()), L(), O())
      ensures ResumeSafe(e, MatchSnapshot(e, open), old(O())) ==> KeepsGuard(old(O()), O())
      ensures Firsts(O()) == Firsts(old(O()))
      ensures r.Ok? && !r.value.matched ==> !r.value.entry.Terminal()
      ensures r.Ok? && r.value.action.Error? ==> !r.value.matched && r.value.entry.key == e.key
      ensures r.Ok? && r.value.action.Error? ==> CanFail(e.key, O(), outside)
      ensures r.Ok? && !r.value.action.Error? ==>
                RowConcluded(e, open, completed, r.value, O(), settings, outside, now) && Concluded(e, r.value)
      ensures r.Ok? && r.value.action.Cancel? ==> CancelRequested(r.value)
    {
      ghost var l0, o0 := L(), O();
      ghost var safe := ResumeSafe(e, MatchSnapshot(e, open), o0);
      r := ReconcileTried(e, open, completed, seenOpen, seenDone);
      if r.Raised? {
        ghost var o1 := O();
        r := CaughtOn(e, safe, l0, o0);
        assert O() == o1;
      }
    }

    method ReconcileTried(e: Entry, open: seq<Snapshot>, completed: seq<Snapshot>, ghost seenOpen: seq<Order>,
                          ghost seenDone: seq<Order>)
      returns (r: Exit<ReconcileUpdate>)
      requires Holds(e)
      requires OpenReport(seenOpen, open) && OrdersOK(seenOpen) && Since(seenOpen, O(), e.key)
      requires CompletedReport(seenDone, completed) && Drifted(seenOpen, seenDone) && Later(seenDone, O())
      modifies store, store.disk, broker
      ensures Valid() && !r.NotConfirmed? && StepsIn(Both(e.key), old(L()), old(O()), L(), O())
      ensures ResumeSafe(e, MatchSnapshot(e, open), old(O())) ==> KeepsGuard(old(O()), O())
      ensures Firsts(O()) == Firsts(old(O()))
      ensures r.Ok? ==> !r.value.action.Error? && (!r.value.matched ==> !r.value.entry.Terminal())
      ensures r.Ok? ==> RowConcluded(e, open, completed, r.value, O(), settings, outside, now) && Concluded(e, r.value)
      ensures r.Ok? && r.value.action.Cancel? ==> CancelRequested(r.value)
      ensures r.Raised? ==> CanFail(e.key, O(), outside)
    {
      r := ReconcileEntry(e, open, completed, seenOpen, seenDone);
      if r.Ok? {
        NeverError(e, open, completed, r.value, O(), settings, outside, now);
      }
    }

    method CaughtOn(e: Entry, ghost safe: bool, ghost l0: Ledger, ghost o0: seq<Order>)
      returns (r: Exit<ReconcileUpdate>)
      requires Valid() && !e.Terminal() && StepsIn(Both(e.key), l0, o0, L(), O()) && (safe ==> KeepsGuard(o0, O()))
      requires Firsts(O()) == Firsts(o0)
      modifies store
      ensures Valid() && StepsIn(Both(e.key), l0, o0, L(), O()) && (safe ==> KeepsGuard(o0, O()))
      ensures Firsts(O()) == Firsts(o0)
      ensures r.Ok? && !r.value.matched && !r.value.entry.Terminal() && r.value.entry.key == e.key
      ensures r.value.action.Error?
    {
      var current := store.Get(e.key);
      r := Ok(ReconcileUpdate(if current.Some? then current.value else e, Error, false));
    }
 
    method LoadOpen() returns (rows: seq<Entry>)
      requires Valid()
      modifies store
      ensures Valid() && ListsOpen(rows, L()) && Queued(L(), O(), rows, 0, O())
    {
      LaterReflexive(O());
      rows := store.LoadOpenOrders();
    }

    /** The open query, with the discovery of orders the ledger does not know.  The ledger is left as it
        is; the broker's answer, `listed`, passes exactly when open rows carry every order in it. */
    method QueryOpen() returns (r: Exit<seq<Snapshot>>, ghost listed: seq<Snapshot>)
      requires Valid()
      modifies store, store.disk, broker
      ensures Valid() && !r.NotConfirmed? && L() == old(L()) && Drifted(old(O()), O())
      ensures r.Ok? ==> r.value == listed && OpenReport(O(), listed)
      ensures r.Ok? && settings.ibkr ==> forall s | s in listed :: CoveredBy(L(), s)
      ensures r.Raised? ==> outside.openQuery.Raises? || (settings.ibkr && Uncarried(listed, L(), O()))
    {
      var fetched := broker.FetchOpenOrders(outside.openQuery);
      listed := if fetched.Ok? then fetched.value else [];
      InvDriftSteps({}, L(), old(O()), O());
      if !fetched.Ok? || !settings.ibkr {
        return fetched, listed;
      }
      ListedIsKnown(L(), O(), fetched.value);
      CoveredAreCarried(L(), O(), fetched.value);
      var restored := RestoreUntracked(store, fetched.value, now);
      r := if restored.Ok? then fetched else restored.PropagateFailure();
    }

    /** Completed history and whether it failed.  It is asked for exactly when some row matches no open
        order. */
    method QueryHistory(rows: seq<Entry>, open: seq<Snapshot>)
      returns (r: Exit<(seq<Snapshot>, bool)>, ghost answer: Option<Exit<seq<Snapshot>>>)
      requires Valid()
      modifies broker
      ensures Valid() && (r.Ok? || r.Crashed?) && Drifted(old(O()), O())
      ensures r.Ok? ==> CompletedReport(O(), r.value.0)
      ensures r.Ok? && r.value.1 ==> outside.history.Raises?
      ensures answer.None? <==> forall i | 0 <= i < |rows| :: MatchSnapshot(rows[i], open).Matched?
      ensures answer.None? ==> r == Ok(([], false)) && O() == old(O())
      ensures answer.Some? && r.Ok? ==> r.value == if answer.value.Ok? then (answer.value.value, false) else ([], true)
    {
      LaterReflexive(O());
      answer := None;
      if forall i | 0 <= i < |rows| :: MatchSnapshot(rows[i], open).Matched? {
        return Ok(([], false)), answer;
      }
      var fetched := broker.FetchCompletedOrders(outside.history);
      InvDriftSteps({}, L(), old(O()), O());
      answer := Some(fetched);
      r := match fetched
           case Ok(completed) => Ok((completed, false))
           case Crashed => Crashed
           case _ => Ok(([], true));
    }

    /** Reconcile the open rows with the broker, in one pass over them: every one of them is done, and the
        ledger has what was concluded.  It raises only if the open query raised, or listed an order that no
        open row carries. */
    method Reconcile() returns (r: Exit<seq<ReconcileUpdate>>, ghost sweep: Sweep)
      requires Valid()
      modifies store, store.disk, broker
      ensures Valid() && !r.NotConfirmed?
      ensures StepsIn(RefsOf(old(L())), old(L()), old(O()), L(), O())
      ensures r.Ok? ==> AbsenceStaysOpen(r.value)
      ensures r.Ok? ==> ListsOpen(sweep.rows, old(L())) && |r.value| == |sweep.rows|
      ensures r.Ok? ==> PassDone(sweep, r.value, L(), O(), settings, outside, now)
      ensures r.Ok? && sweep.failed ==> outside.history.Raises?
      ensures r.Raised? ==> outside.openQuery.Raises? || (settings.ibkr && Uncarried(sweep.open, old(L()), O()))
      ensures SweepOf(sweep, old(L()), old(O()), O())
      ensures SweepGuarded(sweep) ==> KeepsGuard(old(O()), O())
      ensures Firsts(O()) == Firsts(old(O()))
    {
      ghost var l0, o0 := L(), O();
      sweep := Sweep([], [], [], false, [], []);
      StepsInReflexive(RefsOf(l0), L(), O());
      var loaded := LoadOpen();
      if loaded == [] && !settings.ibkr {
        return Ok([]), sweep;
      }
      ghost var listed;
      var open: Exit<seq<Snapshot>>;
      open, listed := QueryOpen();
      ghost var o1 := O();
      DriftSteps(l0, o0, o1);
      GuardedDrifts(o0, o1);
      if !open.Ok? {
        sweep := sweep.(open := listed);
        return open.PropagateFailure(), sweep;
      }
      var rows := LoadOpen();
      if rows == [] {
        return Ok([]), sweep;
      }
      r, sweep := ReconcileLoaded(rows, open.value, l0, o0);
    }

    /** The open query has an answer; reconcile the rows that were loaded after it. */
    method ReconcileLoaded(rows: seq<Entry>, open: seq<Snapshot>, ghost l0: Ledger, ghost o0: seq<Order>)
      returns (r: Exit<seq<ReconcileUpdate>>, ghost sweep: Sweep)
      requires Valid() && L() == l0 && Drifted(o0, O()) && OrdersOK(o0) && OpenReport(O(), open) && rows != []
      requires ListsOpen(rows, l0) && Queued(l0, O(), rows, 0, O())
      modifies store, store.disk, broker
      ensures Valid() && (r.Ok? || r.Crashed?)
      ensures StepsIn(RefsOf(l0), l0, o0, L(), O())
      ensures r.Ok? ==> AbsenceStaysOpen(r.value)
      ensures r.Ok? ==> sweep.rows == rows && |r.value| == |rows|
      ensures r.Ok? ==> PassDone(sweep, r.value, L(), O(), settings, outside, now)
      ensures r.Ok? && sweep.failed ==> outside.history.Raises?
      ensures SweepOf(sweep, l0, o0, O())
      ensures SweepGuarded(sweep) ==> KeepsGuard(o0, O())
      ensures Firsts(O()) == Firsts(o0)
    {
      ghost var o1, answer := O(), None;
      sweep := Sweep([], [], [], false, [], []);
      var history: Exit<(seq<Snapshot>, bool)>;
      history, answer := QueryHistory(rows, open);
      ghost var o2 := O();
      QueuedDrifts(l0, o1, o2, rows);
      DriftTransitive(o0, o1, o2);
      DriftSteps(l0, o0, o2);
      GuardedDrifts(o0, o2);
      if !history.Ok? {
        return Crashed, sweep;
      }
      LaterReflexive(o2);
      sweep := Sweep(rows, open, history.value.0, history.value.1, o1, o2);
      r := ReconcileRows(rows, open, history.value.0, history.value.1, o1, o2);
      RowKeysKnown(rows, l0);
      StepsInWidens(RowRefs(rows), RefsOf(l0), l0, o2, L(), O());
      StepsInTransitive(RefsOf(l0), l0, o0, l0, o2, L(), O());
    }

    // ---- before a new rebalance ----

    /** Say in the ledger that the cancel of an open order was requested. */
    method RecordCancelRequest(e: Entry) returns (r: Step)
      requires Holds(e) && e.orderId.Some?
      modifies store, store.disk
      ensures Valid() && !r.Raises? && StepsIn(Both(e.key), old(L()), O(), L(), O())
      ensures L() == old(L())[e.key := CancelPending(e)] || (r.Dies? && L() == old(L()))
    {
      var pending := CancelPending(e);
      SelfAdmissible(L(), O(), e);
      RestatedRow(L(), O(), e, pending);
      ghost var before := L();
      r := Write(pending);
      StepsInWidens({e.key}, Both(e.key), before, O(), L(), O());
    }

    /** Request the cancel of one foreign open order; a rediscovered order is never touched. */
    method CancelForeign(e: Entry) returns (r: Exit<bool>)
      requires Holds(e)
      modifies store, store.disk, broker
      ensures Valid() && !r.NotConfirmed? && StepsIn(Both(e.key), old(L()), old(O()), L(), O())
      ensures L() == old(L()) || L() == old(L())[e.key := CancelPending(e)]
      ensures |O()| == |old(O())|
      ensures r.Ok? ==> CancelTried(e, L(), O())
      ensures r == Ok(true) ==> L() == old(L())[e.key := CancelPending(e)] && e.orderId.Some? && e.orderId.value in broker.requested
      ensures r == Ok(false) ==> L() == old(L())
      ensures r.Raised? ==> outside.cancelling(e.key).Raises?
    {
      ghost var l0, o0 := L(), O();
      StepsInReflexive(Both(e.key), L(), O());
      if e.recovered || e.orderId.None? {
        return Ok(false);
      }
      SelfAdmissible(L(), O(), e);
      var requested :- CancelAt(e, e, e.orderId.value, outside.cancelling(e.key));
      if !requested {
        return Ok(false);
      }
      ghost var o1 := O();
      var step := RecordCancelRequest(e);
      StepsInTransitive(Both(e.key), l0, o0, l0, o1, L(), O());
      r := if step.Done? then Ok(true) else step.PropagateFailure();
    }

    /** Request the cancel of every foreign open order; none of their rows closes by that. */
    method CancelGroup(rows: seq<Entry>, session: string, run: string) returns (r: Exit<nat>)
      requires Valid() && Queued(L(), O(), rows, 0, O()) && ListsOpen(rows, L())
      modifies store, store.disk, broker
      ensures Valid() && !r.NotConfirmed? && StepsIn(RowRefs(rows), old(L()), old(O()), L(), O())
      ensures StaysOpen(old(L()), L()) && |O()| == |old(O())|
      ensures r.Ok? ==> ForeignTried(rows, |rows|, session, run, L(), O())
      ensures r.Raised? ==> CancelsFail(outside)
    {
      ghost var l0, o0 := L(), O();
      StepsInReflexive(RowRefs(rows), L(), O());
      var cancelled := 0;
      for i := 0 to |rows|
        invariant Cancelling(rows, i, session, run, l0, o0)
      {
        if rows[i].session == session && rows[i].run == run {
          continue;
        }
        var one :- CancelNext(rows, i, session, run, l0, o0);
        cancelled := cancelled + (if one then 1 else 0);
      }
      r := Ok(cancelled);
    }

    /** The rows from the `i`th on are as they were loaded, no row was closed, and the foreign ones before
        were asked to cancel. */
    ghost predicate Cancelling(rows: seq<Entry>, i: nat, session: string, run: string, l0: Ledger, o0: seq<Order>)
      reads store, store.disk, broker
    {
      && Valid() && Queued(L(), O(), rows, i, o0) && StepsIn(RowRefs(rows), l0, o0, L(), O())
      && StaysOpen(l0, L()) && |O()| == |o0| && ForeignTried(rows, i, session, run, L(), O())
    }

    method CancelNext(rows: seq<Entry>, i: nat, session: string, run: string, ghost l0: Ledger, ghost o0: seq<Order>)
      returns (r: Exit<bool>)
      requires Cancelling(rows, i, session, run, l0, o0) && i < |rows| && Foreign(rows[i], session, run)
      modifies store, store.disk, broker
      ensures !r.NotConfirmed? && (r.Raised? ==> CancelsFail(outside))
      ensures Valid() && StepsIn(RowRefs(rows), l0, o0, L(), O()) && StaysOpen(l0, L()) && |O()| == |o0|
      ensures r.Ok? ==> Cancelling(rows, i + 1, session, run, l0, o0)
    {
      ghost var l1, o1 := L(), O();
      r := CancelForeign(rows[i]);
      StaysOpenNext(l0, l1, L(), rows[i]);
      StepsInWidens(Both(rows[i].key), RowRefs(rows), l1, o1, L(), O());
      StepsInTransitive(RowRefs(rows), l0, o0, l1, o1, L(), O());
      QueuedNext(rows, i, o0, l1, o1, L(), O());
      if r.Ok? {
        ForeignTriedNext(rows, i, session, run, l1, o1, L(), O(), o0);
      }
    }

    /** Bring the ledger up to date with the broker; nothing if that could not be completed.  Then the pass
        raised, or some row of it did. */
    method RefreshOpen() returns (r: Exit<Option<seq<Entry>>>, ghost sweep: Sweep, ghost updates: seq<ReconcileUpdate>)
      requires Valid()
      modifies store, store.disk, broker
      ensures Valid() && (r.Ok? || r.Crashed?) && StepsIn(RefsOf(old(L())), old(L()), old(O()), L(), O())
      ensures r.Ok? && r.value.Some? ==> ListsOpen(r.value.value, L()) && Queued(L(), O(), r.value.value, 0, O())
      ensures r.Ok? && r.value.Some? ==> CleanPass(sweep, updates, old(L()), L(), O(), settings, outside, now)
      ensures r == Ok(None) ==> UncleanPass(sweep, updates, old(L()), O(), settings, outside, now)
      ensures SweepOf(sweep, old(L()), old(O()), O())
      ensures SweepGuarded(sweep) ==> KeepsGuard(old(O()), O())
      ensures Firsts(O()) == Firsts(old(O()))
    {
      sweep, updates := Sweep([], [], [], false, [], []), [];
      StepsInReflexive(RefsOf(L()), L(), O());
      var loaded := LoadOpen();
      if loaded == [] && !settings.ibkr {
        return Ok(Some(loaded)), sweep, updates;
      }
      var summary: Exit<seq<ReconcileUpdate>>;
      summary, sweep := Reconcile();
      if summary.Crashed? {
        return Crashed, sweep, updates;
      }
      updates := if summary.Ok? then summary.value else [];
      if summary.Raised? || exists j :: 0 <= j < |summary.value| && summary.value[j].action.Error? {
        return Ok(None), sweep, updates;
      }
      loaded := LoadOpen();
      r := Ok(Some(loaded));
    }

    /** Refresh the ledger against the broker, then block if the refresh was incomplete or any open
        row is of another session or run.  After a complete refresh the answer is exact: unblocked
        means that every open row is of this very run.  One policy also asks to cancel every foreign
        order.  `check` tells how it came to the answer. */
    method CheckStaleOrders(session: string, run: string) returns (r: Exit<bool>, ghost check: StaleCheck)
      requires Valid()
      modifies store, store.disk, broker
      ensures Valid() && !r.NotConfirmed? && StepsIn(RefsOf(old(L())), old(L()), old(O()), L(), O())
      ensures r.Ok? ==> r.value == check.blocks
      ensures r.Raised? ==> settings.cancelPolicy && CancelsFail(outside)
      ensures r.Ok? ==> Checked(check, old(L()), State(L(), O()), session, run, settings, outside, now)
      ensures SweepOf(check.sweep, old(L()), old(O()), O())
      ensures SweepGuarded(check.sweep) ==> KeepsGuard(old(O()), O())
      ensures Firsts(O()) == Firsts(old(O()))
    {
      ghost var l0, o0, sweep, updates := L(), O(), Sweep([], [], [], false, [], []), [];
      var loaded: Exit<Option<seq<Entry>>>;
      loaded, sweep, updates := RefreshOpen();
      ghost var l1, o1 := L(), O();
      check := StaleCheck(loaded.Ok? && loaded.value.Some?, true, sweep, updates, State(l1, o1));
      if !loaded.Ok? {
        return Crashed, check;
      }
      if loaded.value.None? {
        return Ok(true), check;
      }
      var rows := loaded.value.value;
      AllOfRun(l1, rows, session, run);
      LaterReflexive(o1);
      if forall i | 0 <= i < |rows| :: rows[i].session == session && rows[i].run == run {
        NoneForeign(l1, o1, session, run, settings);
        return Ok(false), check.(blocks := false);
      }
      r := BlockForForeign(rows, session, run);
      RowKeysKnown(rows, l1);
      StepsInWidens(RowRefs(rows), RefsOf(l0), l1, o1, L(), O());
      StepsInTransitive(RefsOf(l0), l0, o0, l1, o1, L(), O());
      SweepLater(sweep, l0, o0, o1, O());
      GuardedDrifts(o1, O());
    }

    /** Foreign open rows block the rebalance under either policy; one policy also cancels them. */
    method BlockForForeign(rows: seq<Entry>, session: string, run: string) returns (r: Exit<bool>)
      requires Valid() && Queued(L(), O(), rows, 0, O()) && ListsOpen(rows, L()) && !OpenOnly(L(), run, session)
      modifies store, store.disk, broker
      ensures Valid() && !r.NotConfirmed? && StepsIn(RowRefs(rows), old(L()), old(O()), L(), O())
      ensures r.Ok? ==> r.value && OnlyCancels(old(L()), L(), O(), session, run, settings)
      ensures r.Raised? ==> settings.cancelPolicy && CancelsFail(outside)
      ensures !OpenOnly(L(), run, session) && |O()| == |old(O())|
    {
      StepsInReflexive(RowRefs(rows), L(), O());
      ghost var l0, o0 := L(), O();
      if !settings.cancelPolicy {
        LeftAlone(l0, O(), session, run, settings);
        return Ok(true);
      }
      var cancelled := CancelGroup(rows, session, run);
      ForeignStaysForeign(l0, L(), run, session);
      if cancelled.Ok? {
        CancelsOnly(rows, l0, o0, L(), O(), session, run, settings);
      }
      r := if cancelled.Ok? then Ok(true) else cancelled.PropagateFailure();
    }
  }
}
