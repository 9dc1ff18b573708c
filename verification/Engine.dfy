/** One rebalance (src/poma/engine.py), and the life of the whole system: any sequence of commands,
    each in a process of its own that may die after any effect. */
module Engine {
  import opened Models
  import opened OrderLifecycle
  import opened OrderStorage
  import opened BrokerModel
  import opened LedgerInvariant
  import opened Recording
  import opened ExecutionPolicy
  import opened PlanPhases
  import opened Reconciliation
  import opened FamilyShares
  import opened OrderExecution
  import opened Environment

  datatype Outcome = Blocked | Executed(results: seq<OrderResult>) | Reconciled(updates: seq<ReconcileUpdate>)

  class RebalanceEngine {
    const manager: ExecutionManager

    constructor (manager: ExecutionManager)
      ensures this.manager == manager
    {
      this.manager := manager;
    }

    ghost function L(): Ledger
      reads manager.store.disk
    {
      manager.store.disk.Ledger()
    }

    ghost function O(): seq<Order>
      reads manager.broker
    {
      manager.broker.orders
    }

    ghost function Now(): State
      reads manager.store.disk, manager.broker
    {
      State(L(), O())
    }

    /** Check for stale orders, then execute the plan unless something blocks it.  `plan` is whatever
        planning came up with this time, and `planBlocked` whether any of its own checks blocks.
        `checked` is the state after the stale-order check. */
    method Run(plan: Plan, planBlocked: bool)
      returns (r: Exit<Outcome>, ghost check: StaleCheck, ghost checked: State, ghost trace: PlanTrace)
      requires manager.Valid() && Executable(plan)
      requires manager.settings.orderStatusTimeout >= 1 && StandardRules(manager.settings.pricing.rules)
      modifies manager.store, manager.store.disk, manager.broker
      ensures manager.Valid() && !r.NotConfirmed? && Follows(old(L()), old(O()), L(), O())
      ensures StepsIn(RefsOf(old(L())), old(L()), old(O()), checked.ledger, checked.orders)
      ensures OnlyResubmits(checked.ledger, checked.orders, L(), O()) && SellsFirst(checked.orders, O())
      ensures r.Ok? ==> Checked(check, old(L()), checked, plan.session, plan.run, manager.settings, manager.outside, manager.now)
      ensures r.Ok? ==> !r.value.Reconciled? && (r.value.Blocked? <==> check.blocks || planBlocked)
      ensures r.Raised? ==> RunFails(manager.settings, manager.outside)
      ensures planBlocked || r == Ok(Blocked) ==> Now() == checked
      ensures r.Ok? && r.value.Executed? ==>
                && OpenOnly(checked.ledger, plan.run, plan.session) && OpenOnly(L(), plan.run, plan.session)
                && PlanSubmitted(plan, checked, Now(), r.value.results, trace, manager.settings, manager.outside)
      ensures SweepOf(check.sweep, old(L()), old(O()), O()) && NewFirsts(old(O()), O(), plan.run)
      ensures SweepGuarded(check.sweep) ==> KeepsGuard(old(O()), O())
    {
      ghost var l0, o0 := L(), O();
      var stale: Exit<bool>;
      stale, check := manager.CheckStaleOrders(plan.session, plan.run);
      checked, trace := Now(), NoTrace();
      NothingSubmitted(checked.ledger, checked.orders);
      NoNewFirsts(o0, checked.orders);
      if !stale.Ok? {
        return stale.PropagateFailure(), check, checked, trace;
      }
      if stale.value || planBlocked {
        return Ok(Blocked), check, checked, trace;
      }
      UnblockedIsOwn(check, l0, checked, plan.session, plan.run, manager.settings, manager.outside, manager.now);
      r, trace := Submit(plan);
      RunsOn(check.sweep, l0, o0, checked.ledger, checked.orders, L(), O(), plan.run);
    }

    method Submit(plan: Plan) returns (r: Exit<Outcome>, ghost trace: PlanTrace)
      requires manager.Valid() && Executable(plan) && OpenOnly(L(), plan.run, plan.session)
      requires manager.settings.orderStatusTimeout >= 1 && StandardRules(manager.settings.pricing.rules)
      modifies manager.store, manager.store.disk, manager.broker
      ensures manager.Valid() && !r.NotConfirmed?
      ensures Follows(old(L()), old(O()), L(), O()) && OnlyResubmits(old(L()), old(O()), L(), O())
      ensures SellsFirst(old(O()), O()) && KeepsGuard(old(O()), O()) && NewFirsts(old(O()), O(), plan.run)
      ensures r.Ok? ==> r.value.Executed? && OpenOnly(L(), plan.run, plan.session)
      ensures r.Raised? ==> SubmissionFails(manager.settings, manager.outside)
      ensures r.Ok? ==> PlanSubmitted(plan, old(Now()), Now(), r.value.results, trace, manager.settings, manager.outside)
    {
      var done: Exit<seq<OrderResult>>;
      done, trace := manager.SubmitPlan(plan);
      r := if done.Ok? then Ok(Executed(done.value)) else done.PropagateFailure();
    }
  }

  /** What can make a rebalance raise once it is planned: cancelling a foreign order, or asking for quotes. */
  ghost predicate RunFails(c: Settings, o: Outside) {
    (c.cancelPolicy && CancelsFail(o)) || SubmissionFails(c, o)
  }

  /** The plan was submitted from one state to another. */
  ghost predicate PlanSubmitted(plan: Plan, before: State, after: State, results: seq<OrderResult>, trace: PlanTrace, c: Settings,
                            o: Outside) {
    && AnswersPlan(before.ledger, after.ledger, after.orders, plan, results)
    && CarriedOut(plan, before.ledger, before.orders, after.ledger, after.orders, results, trace, c, o)
  }

  function NoTrace(): PlanTrace {
    PlanTrace(Unpriced([]), Unpriced([]), map[])
  }

  lemma UnblockedIsOwn(check: StaleCheck, l: Ledger, checked: State, session: string, run: string, c: Settings, o: Outside,
                       now: real)
    requires Checked(check, l, checked, session, run, c, o, now) && !check.blocks
    ensures OpenOnly(checked.ledger, run, session)
  {
  }

  lemma NothingSubmitted(l: Ledger, os: seq<Order>)
    requires AllSound(os)
    ensures OnlyResubmits(l, os, l, os) && SellsFirst(os, os)
  {
  }

  /** The stale-order check, then the submission. */
  lemma RunsOn(sweep: Sweep, l0: Ledger, o0: seq<Order>, l1: Ledger, o1: seq<Order>, l2: Ledger, o2: seq<Order>,
               run: string)
    requires Firsts(o1) == Firsts(o0) && NewFirsts(o1, o2, run)
    requires Follows(l0, o0, l1, o1) && Follows(l1, o1, l2, o2)
    requires SweepOf(sweep, l0, o0, o1) && (SweepGuarded(sweep) ==> KeepsGuard(o0, o1)) && KeepsGuard(o1, o2)
    ensures Follows(l0, o0, l2, o2) && SweepOf(sweep, l0, o0, o2) && (SweepGuarded(sweep) ==> KeepsGuard(o0, o2))
    ensures NewFirsts(o0, o2, run)
  {
    FollowsTransitive(l0, o0, l1, o1, l2, o2);
    SweepLater(sweep, l0, o0, o1, o2);
    NoNewFirsts(o0, o1);
    assert forall i | 0 <= i < |o1| :: Moves(o1[i], o2[i]);
  }

  /** One command line, with the settings and the clock of its process, and what it will meet outside. */
  datatype Command =
    | Rebalance(plan: Plan, planBlocked: bool, settings: Settings, now: real, outside: Outside)
    | ReconcileOrders(settings: Settings, now: real, outside: Outside)

  /** One process: how it ended, the reconcile pass it made, and for a rebalance its stale-order check, the
      state after that, and the trace of the submission. */
  datatype Log = Log(command: Command, outcome: Exit<Outcome>, sweep: Sweep, check: StaleCheck, checked: State, trace: PlanTrace)

  /** What the outcome of a process says, `l` being the ledger before and `after` the state it left. */
  ghost predicate Did(log: Log, l: Ledger, after: State) {
    var c := log.command;
    && !log.outcome.NotConfirmed?
    && (log.outcome.Raised? ==>
          if c.Rebalance? then RunFails(c.settings, c.outside)
          else c.outside.openQuery.Raises? || (c.settings.ibkr && Uncarried(log.sweep.open, l, after.orders)))
    && log.outcome.Ok? ==>
      match log.outcome.value
      case Reconciled(updates) =>
        && c.ReconcileOrders? && ListsOpen(log.sweep.rows, l) && |updates| == |log.sweep.rows|
        && PassDone(log.sweep, updates, after.ledger, after.orders, c.settings, c.outside, c.now)
      case Blocked =>
        && c.Rebalance? && (log.check.blocks || c.planBlocked) && log.checked == after
        && Checked(log.check, l, after, c.plan.session, c.plan.run, c.settings, c.outside, c.now)
      case Executed(results) =>
        && c.Rebalance? && !log.check.blocks && !c.planBlocked
        && Checked(log.check, l, log.checked, c.plan.session, c.plan.run, c.settings, c.outside, c.now)
        && PlanSubmitted(c.plan, log.checked, after, results, log.trace, c.settings, c.outside)
  }

  predicate Runnable(c: Command) {
    && c.settings.orderStatusTimeout >= 1 && StandardRules(c.settings.pricing.rules)
    && (c.Rebalance? ==> Executable(c.plan))
  }

  /** The durable state: the ledger's files and the broker's orders.  Everything else dies with its
      process. */
  class System {
    const disk: Disk
    const broker: Broker

    constructor ()
      ensures Valid() && L() == map[] && O() == []
      ensures fresh(disk) && fresh(broker)
    {
      disk := new Disk();
      broker := new Broker();
      new;
      EmptyInv();
    }

    ghost predicate Valid()
      reads disk, broker
    {
      disk.Valid() && broker.Valid() && Inv(disk.Ledger(), broker.orders)
    }

    ghost function L(): Ledger
      reads disk
    {
      disk.Ledger()
    }

    ghost function O(): seq<Order>
      reads broker
    {
      broker.orders
    }

    /** One process. */
    method Execute(c: Command) returns (outcome: Exit<Outcome>, ghost log: Log)
      requires Valid() && Runnable(c)
      modifies disk, broker
      ensures Valid() && Follows(old(L()), old(O()), L(), O()) && OwnFirsts(c, old(O()), O())
      ensures SweepOf(log.sweep, old(L()), old(O()), O())
      ensures SweepGuarded(log.sweep) ==> KeepsGuard(old(O()), O())
      ensures log.command == c && log.outcome == outcome && Did(log, old(L()), Now())
    {
      ghost var o0, check, checked, trace := O(), NoCheck(), Now(), NoTrace();
      var store := new OrderStore(disk);
      var manager := new ExecutionManager(store, broker, c.settings, c.now, c.outside);
      ghost var sweep;
      match c {
        case Rebalance(plan, planBlocked, _, _, _) =>
          var engine := new RebalanceEngine(manager);
          outcome, check, checked, trace := engine.Run(plan, planBlocked);
          sweep := check.sweep;
        case ReconcileOrders(_, _, _) =>
          var updates: Exit<seq<ReconcileUpdate>>;
          updates, sweep := manager.Reconcile();
          NoNewFirsts(o0, O());
          outcome := if updates.Ok? then Ok(Reconciled(updates.value)) else updates.PropagateFailure();
      }
      log := Log(c, outcome, sweep, check, checked, trace);
    }

    ghost function Now(): State
      reads disk, broker
    {
      State(L(), O())
    }

    /** Time passes at the broker, then one process. */
    method ServeOne(c: Command) returns (outcome: Exit<Outcome>, ghost log: Log)
      requires Valid() && Runnable(c)
      modifies disk, broker
      ensures Valid() && Served(old(Now()), Now(), log)
      ensures log.command == c && log.outcome == outcome
    {
      ghost var l0, o0 := L(), O();
      broker.Drift();
      InvDrifts(l0, o0, O());
      GuardedDrifts(o0, O());
      ghost var o1 := O();
      outcome, log := Execute(c);
      SweepEarlier(log.sweep, l0, o0, o1, O());
      FollowsTransitive(l0, o0, l0, o1, L(), O());
    }

    /** Any run of the system, `states` being those between its processes and `logs` what each of them did:
        the invariant holds after every process, however it ended, and what was settled stays settled.
        While the reconcile passes are guarded, no key's family executes more than its row allows. */
    method Serve(commands: seq<Command>) returns (ghost states: seq<State>, ghost logs: seq<Log>)
      requires Valid() && forall i | 0 <= i < |commands| :: Runnable(commands[i])
      modifies disk, broker
      ensures Valid() && Follows(old(L()), old(O()), L(), O())
      ensures Chain(commands, states, logs) && states[0] == old(Now()) && Last(states) == Now()
      ensures AllGuarded(logs) ==> KeepsGuard(old(O()), O())
      ensures AllGuarded(logs) && Guarded(old(O())) ==>
                forall key | key in L() :: FilledShares(O(), key) <= Max(L()[key].quantity, 0.0)
    {
      ghost var start := Now();
      states, logs := [Now()], [];
      for i := 0 to |commands|
        invariant Valid() && Chain(commands[..i], states, logs)
        invariant states[0] == start && Last(states) == Now()
      {
        var outcome: Exit<Outcome>;
        ghost var log;
        outcome, log := ServeOne(commands[i]);
        ChainNext(commands, i, states, logs, Now(), log);
        states, logs := states + [Now()], logs + [log];
      }
      assert commands[..|commands|] == commands;
      ChainReaches(commands, states, logs);
      if Guarded(O()) {
        FillsStayWithinRows(L(), O());
      }
    }
  }

  function NoCheck(): StaleCheck {
    StaleCheck(false, false, Sweep([], [], [], false, [], []), [], State(map[], []))
  }

  /** A process places first orders only for its own plan, and reconciling places none. */
  ghost predicate OwnFirsts(c: Command, os: seq<Order>, os': seq<Order>) {
    forall i | |os| <= i < |os'| && os'[i].ref.Root? :: c.Rebalance? && os'[i].ref.run == c.plan.run
  }

  /** One process between two states: it went by one pass over the open rows of the first, on reports that
      were true of the orders meanwhile, and did what its outcome says. */
  ghost predicate Served(before: State, after: State, log: Log) {
    && Inv(before.ledger, before.orders) && Inv(after.ledger, after.orders)
    && Follows(before.ledger, before.orders, after.ledger, after.orders)
    && SweepOf(log.sweep, before.ledger, before.orders, after.orders)
    && (SweepGuarded(log.sweep) ==> KeepsGuard(before.orders, after.orders))
    && Did(log, before.ledger, after) && OwnFirsts(log.command, before.orders, after.orders)
  }

  /** Every process of a run, from state to state. */
  ghost predicate Chain(commands: seq<Command>, states: seq<State>, logs: seq<Log>) {
    && |logs| == |commands| && |states| == |logs| + 1
    && if logs == [] then Inv(states[0].ledger, states[0].orders)
       else
         && Chain(Front(commands), Front(states), Front(logs)) && Last(logs).command == Last(commands)
         && Served(Last(Front(states)), Last(states), Last(logs))
  }

  lemma ChainNext(commands: seq<Command>, i: nat, states: seq<State>, logs: seq<Log>, after: State, log: Log)
    requires i < |commands| && Chain(commands[..i], states, logs)
    requires log.command == commands[i] && Served(Last(states), after, log)
    ensures Chain(commands[..i + 1], states + [after], logs + [log])
  {
    assert Front(commands[..i + 1]) == commands[..i];
    assert Front(states + [after]) == states && Front(logs + [log]) == logs;
  }

  /** What each process of a run did. */
  lemma {:induction false} ChainAt(commands: seq<Command>, states: seq<State>, logs: seq<Log>, i: nat)
    requires Chain(commands, states, logs) && i < |commands|
    ensures logs[i].command == commands[i] && Served(states[i], states[i + 1], logs[i])
  {
    if i < |commands| - 1 {
      ChainAt(Front(commands), Front(states), Front(logs), i);
    }
  }

  /** Reconciling places replacements only. */
  lemma {:induction false} ReconcilesPlaceNoFirsts(commands: seq<Command>, states: seq<State>, logs: seq<Log>)
    requires Chain(commands, states, logs) && forall i | 0 <= i < |commands| :: commands[i].ReconcileOrders?
    ensures forall i | |states[0].orders| <= i < |Last(states).orders| :: Last(states).orders[i].ref.Rep?
  {
    if logs != [] {
      ReconcilesPlaceNoFirsts(Front(commands), Front(states), Front(logs));
      var mid, end := Last(Front(states)).orders, Last(states).orders;
      assert forall i | 0 <= i < |mid| :: Moves(mid[i], end[i]);
    }
  }

  /** From one state to a later one. */
  ghost predicate Reaches(a: State, b: State, guarded: bool) {
    Follows(a.ledger, a.orders, b.ledger, b.orders) && (guarded ==> KeepsGuard(a.orders, b.orders))
  }

  lemma ReachesNext(a: State, b: State, c: State, guarded: bool, log: Log)
    requires Reaches(a, b, guarded) && Served(b, c, log)
    ensures Reaches(a, c, guarded && SweepGuarded(log.sweep))
  {
    FollowsTransitive(a.ledger, a.orders, b.ledger, b.orders, c.ledger, c.orders);
  }

  lemma {:induction false} ChainReaches(commands: seq<Command>, states: seq<State>, logs: seq<Log>)
    requires Chain(commands, states, logs)
    ensures Reaches(states[0], Last(states), AllGuarded(logs))
  {
    if logs == [] {
      LaterReflexive(states[0].orders);
    } else {
      ChainReaches(Front(commands), Front(states), Front(logs));
      ReachesNext(states[0], Last(Front(states)), Last(states), AllGuarded(Front(logs)), Last(logs));
      assert AllGuarded(logs) ==> AllGuarded(Front(logs)) && SweepGuarded(Last(logs).sweep);
    }
  }

  ghost predicate AllGuarded(logs: seq<Log>) {
    forall i | 0 <= i < |logs| :: SweepGuarded(logs[i].sweep)
  }

  lemma FillsStayWithinRows(l: Ledger, os: seq<Order>)
    requires Inv(l, os) && Guarded(os)
    ensures forall key | key in l :: FilledShares(os, key) <= Max(l[key].quantity, 0.0)
  {
    forall key | key in l ensures FilledShares(os, key) <= Max(l[key].quantity, 0.0) {
      FillsStayWithinRow(l, os, key);
    }
  }

  lemma EmptyInv()
    ensures Inv(map[], [])
  {
  }
}
