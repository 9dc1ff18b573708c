/** The whole operation: monitor ticks that drive the order system, with reconcile-orders processes in
    between (src/poma/cli.py, monitor and reconcile_orders). */
module Operation {
  import opened Models
  import opened OrderLifecycle
  import opened BrokerModel
  import opened LedgerInvariant
  import opened ExecutionPolicy
  import opened Environment
  import opened PlanPhases
  import opened SessionState
  import opened OrderSafety
  import opened Engine

  /** What one monitor tick meets besides its clock: the reconcile processes since the last one, the plan
      that planning comes up with, what the rebalance meets outside, whether the process is killed before or
      after it, and, for an end that is not judged by its results, whether it may be retried. */
  datatype Day = Day(reconciles: seq<Command>, trades: seq<Trade>, planBlocked: bool, outside: Outside,
                     killedBefore: bool, killedAfter: bool, settings: Settings, now: real, status: SessionState.Status, retryable: bool)

  predicate Workable(day: Day) {
    && (forall i | 0 <= i < |day.reconciles| :: day.reconciles[i].ReconcileOrders? && Runnable(day.reconciles[i]))
    && day.settings.orderStatusTimeout >= 1 && StandardRules(day.settings.pricing.rules)
    && Executable(Plan("", "", day.trades)) && SessionState.IsTerminal(day.status)
  }

  // ---- what the attempts have to do with the orders ----

  /** Every first order is of the run of some attempt. */
  ghost predicate AllAttempted(os: seq<Order>, history: seq<Attempt>) {
    forall i | 0 <= i < |os| && os[i].ref.Root? :: OfRun(history, os[i].ref.run)
  }

  ghost predicate OfRun(history: seq<Attempt>, run: string) {
    exists a :: 0 <= a < |history| && history[a].run == run
  }

  /** The order is a first order of the session. */
  ghost predicate FirstOf(order: Order, history: seq<Attempt>, session: string) {
    order.ref.Root? && exists a :: 0 <= a < |history| && history[a].session == session && history[a].run == order.ref.run
  }

  /** However often a session is attempted, with whatever plans, it has at most one first order per
      ticker and side. */
  lemma OneFirstOrderPerSession(l: Ledger, os: seq<Order>, p: Payload, history: seq<Attempt>, session: string, i: nat,
                                j: nat)
    requires Inv(l, os) && Accounts(p, history) && i < |os| && j < |os|
    requires FirstOf(os[i], history, session) && FirstOf(os[j], history, session)
    requires os[i].ref.ticker == os[j].ref.ticker && os[i].ref.side == os[j].ref.side
    ensures i == j
  {
    var a :| 0 <= a < |history| && history[a].session == session && history[a].run == os[i].ref.run;
    var b :| 0 <= b < |history| && history[b].session == session && history[b].run == os[j].ref.run;
    assert history[a].run == history[b].run;
    OneFirstOrderPerTrade(l, os, i, j);
  }

  lemma OfRunMore(history: seq<Attempt>, more: seq<Attempt>, run: string)
    requires OfRun(history, run)
    ensures OfRun(history + more, run)
  {
    var a :| 0 <= a < |history| && history[a].run == run;
    assert (history + more)[a] == history[a];
  }

  /** Orders that moved on, with first orders placed for the given run only. */
  lemma AttemptedNext(os: seq<Order>, os': seq<Order>, history: seq<Attempt>, more: seq<Attempt>)
    requires AllAttempted(os, history) && Later(os, os')
    requires forall i | |os| <= i < |os'| && os'[i].ref.Root? :: OfRun(more, os'[i].ref.run)
    ensures AllAttempted(os', history + more)
  {
    forall i | 0 <= i < |os'| && os'[i].ref.Root? ensures OfRun(history + more, os'[i].ref.run) {
      if i < |os| {
        assert Moves(os[i], os'[i]);
        OfRunMore(history, more, os[i].ref.run);
      } else {
        var a :| 0 <= a < |more| && more[a].run == os'[i].ref.run;
        assert (history + more)[|history| + a] == more[a];
      }
    }
  }

  lemma OfNewAttempt(os: seq<Order>, os': seq<Order>, attempt: Option<Attempt>)
    requires if attempt.Some? then NewFirsts(os, os', attempt.value.run) else os' == os
    ensures var more := if attempt.Some? then [attempt.value] else [];
            forall i | |os| <= i < |os'| && os'[i].ref.Root? :: OfRun(more, os'[i].ref.run)
  {
    if attempt.Some? {
      assert [attempt.value][0].run == attempt.value.run;
    }
  }

  /** At most one first order per session, ticker and side. */
  ghost predicate OneEach(os: seq<Order>, history: seq<Attempt>) {
    forall session, i, j | 0 <= i < |os| && 0 <= j < |os| && FirstOf(os[i], history, session) && FirstOf(os[j], history, session)
                           && os[i].ref.ticker == os[j].ref.ticker && os[i].ref.side == os[j].ref.side :: i == j
  }

  lemma OneFirstOrderEach(l: Ledger, os: seq<Order>, p: Payload, history: seq<Attempt>)
    requires Inv(l, os) && Accounts(p, history)
    ensures OneEach(os, history)
  {
    forall session, i, j | 0 <= i < |os| && 0 <= j < |os| && FirstOf(os[i], history, session) && FirstOf(os[j], history, session)
                           && os[i].ref.ticker == os[j].ref.ticker && os[i].ref.side == os[j].ref.side ensures i == j {
      OneFirstOrderPerSession(l, os, p, history, session, i, j);
    }
  }

  // ---- the machines together ----

  /** An outcome and the end it makes: the results decide on the retry of a rebalance that was executed,
      which is retried exactly when some result was blocked before acceptance and every other one is
      informational. */
  predicate EndFits(outcome: Exit<Outcome>, status: SessionState.Status, retryable: bool, end: RunEnd) {
    match outcome
    case Crashed => end == Killed
    case Ok(Executed(results)) =>
      && end.Ended? && end.status == status
      && (end.retryable <==> (exists i :: 0 <= i < |results| && IsPreAcceptance(results[i]) && !IsInformational(results[i]))
                             && forall i | 0 <= i < |results| :: IsInformational(results[i]) || IsPreAcceptance(results[i]))
    case Ok(_) => end == Ended(SessionState.Status.Blocked, retryable)
    case _ => end == Threw(retryable)
  }

  /** How the rebalance of an attempt ended. */
  method EndOf(outcome: Exit<Outcome>, status: SessionState.Status, retryable: bool) returns (end: RunEnd)
    requires SessionState.IsTerminal(status) && (outcome.Ok? ==> !outcome.value.Reconciled?)
    ensures Conclusive(end) && EndFits(outcome, status, retryable, end)
  {
    match outcome {
      case Crashed =>
        end := Killed;
      case Raised =>
        end := Threw(retryable);
      case NotConfirmed =>
        end := Threw(retryable);
      case Ok(value) =>
        if value.Executed? {
          var retry := RetryableResults(value.results);
          end := Ended(status, retry);
        } else {
          end := Ended(SessionState.Status.Blocked, retryable);
        }
    }
  }

  /** The attempt of a day: the process it ran, unless it was killed before, and the end of that. */
  ghost predicate DayFits(day: Day, session: string, run: string, log: Option<Log>, end: RunEnd) {
    && (log.None? <==> day.killedBefore)
    && (log.Some? ==> log.value.command == Rebalance(Plan(run, session, day.trades), day.planBlocked, day.settings, day.now, day.outside))
    && if log.None? || day.killedAfter then end == Killed else EndFits(log.value.outcome, day.status, day.retryable, end)
  }

  /** The rebalance of one attempt, if its process lives to start it. */
  method Rebalanced(system: System, session: string, run: string, day: Day)
    returns (end: RunEnd, ghost log: Option<Log>)
    requires system.Valid() && Workable(day)
    modifies system.disk, system.broker
    ensures system.Valid() && Follows(old(system.L()), old(system.O()), system.L(), system.O()) && Conclusive(end)
    ensures NewFirsts(old(system.O()), system.O(), run)
    ensures DayFits(day, session, run, log, end)
    ensures if log.Some? then Served(old(system.Now()), system.Now(), log.value) else system.Now() == old(system.Now())
  {
    if day.killedBefore {
      LaterReflexive(system.O());
      return Killed, None;
    }
    var plan := Plan(run, session, day.trades);
    var outcome: Exit<Outcome>;
    ghost var made;
    outcome, made := system.ServeOne(Rebalance(plan, day.planBlocked, day.settings, day.now, day.outside));
    log := Some(made);
    if day.killedAfter {
      return Killed, log;
    }
    RebalanceOutcome(made, old(system.L()), system.Now());
    end := EndOf(outcome, day.status, day.retryable);
  }

  lemma RebalanceOutcome(log: Log, l: Ledger, after: State)
    requires Did(log, l, after) && log.command.Rebalance?
    ensures log.outcome.Ok? ==> !log.outcome.value.Reconciled?
  {
  }

  /** The reconcile processes between two ticks. */
  method ReconcileBetween(system: System, commands: seq<Command>)
    returns (ghost states: seq<State>, ghost logs: seq<Log>)
    requires system.Valid()
    requires forall i | 0 <= i < |commands| :: commands[i].ReconcileOrders? && Runnable(commands[i])
    modifies system.disk, system.broker
    ensures system.Valid() && Follows(old(system.L()), old(system.O()), system.L(), system.O())
    ensures Chain(commands, states, logs) && states[0] == old(system.Now()) && Last(states) == system.Now()
    ensures forall i | |old(system.O())| <= i < |system.O()| :: system.O()[i].ref.Rep?
  {
    states, logs := system.Serve(commands);
    ReconcilesPlaceNoFirsts(commands, states, logs);
  }

  /** Reconcile, assess what is pending, and tick: an attempt that is due begins, rebalances and ends. */
  method OperateOne(system: System, state: LocalState, ticks: seq<Tick>, day: Day, history: seq<Attempt>, i: nat,
                    ghost when: seq<nat>)
    returns (history': seq<Attempt>, ghost turn: Turn, ghost when': seq<nat>, ghost log: TickLog)
    requires system.Valid() && AllAttempted(system.O(), history) && Workable(day)
    requires InCalendarOrder(ticks) && i < |ticks| && ticks[i].newRun != ""
    requires Accounts(state.payload, history) && Dated(ticks, when, history, i, state.payload)
    modifies system.disk, system.broker, state
    ensures system.Valid() && AllAttempted(system.O(), history')
    ensures Assessed(old(state.payload), turn.before) && turn.after == state.payload && turn.tick == ticks[i]
    ensures Turned(turn) && TickFits(day, turn, log)
    ensures log.states[0] == old(system.Now()) && log.after == system.Now()
    ensures history' == history + (if turn.attempt.Some? then [turn.attempt.value] else [])
    ensures Accounts(state.payload, history') && Dated(ticks, when', history', i + 1, state.payload)
  {
    ghost var o0 := system.O();
    ghost var states, logs := ReconcileBetween(system, day.reconciles);
    AttemptedNext(o0, system.O(), history, []);
    assert history + [] == history;
    var session, run, reached := *, *, *;
    ghost var was := state.payload;
    AssessSession(state, session, run, reached);
    AssessedAccounts(was, state.payload, ticks, when, history, i);
    ghost var o1 := system.O();
    var attempt: Option<Attempt>;
    ghost var made;
    attempt, turn, made := AttemptTick(system, state, ticks[i], day);
    log := TickLog(states, logs, made, system.Now());
    when' := TurnAccounts(ticks, when, history, i, turn);
    ghost var more := if attempt.Some? then [attempt.value] else [];
    OfNewAttempt(o1, system.O(), attempt);
    AttemptedNext(o1, system.O(), history, more);
    history' := history + (if attempt.Some? then [attempt.value] else []);
  }

  /** The attempt of a tick, if it made one, ended as its day has it. */
  ghost predicate TurnFits(day: Day, turn: Turn, log: Option<Log>) {
    turn.attempt.Some? ==> DayFits(day, turn.attempt.value.session, turn.attempt.value.run, log, turn.end)
  }

  /** What one tick did to the order system: the reconcile processes before it, and its attempt. */
  datatype TickLog = TickLog(states: seq<State>, between: seq<Log>, attempt: Option<Log>, after: State)

  ghost predicate TickFits(day: Day, turn: Turn, log: TickLog) {
    && Chain(day.reconciles, log.states, log.between) && TurnFits(day, turn, log.attempt)
    && (turn.attempt.None? ==> log.attempt.None?)
    && if log.attempt.Some? then Served(Last(log.states), log.after, log.attempt.value) else log.after == Last(log.states)
  }

  function Reached(logs: seq<TickLog>, start: State): State {
    if logs == [] then start else Last(logs).after
  }

  /** Every tick of a run went as its day has it, each from the state that the one before it left. */
  ghost predicate DaysFit(days: seq<Day>, turns: seq<Turn>, logs: seq<TickLog>, start: State) {
    && |turns| == |logs| <= |days|
    && (logs != [] ==>
          && DaysFit(days, Front(turns), Front(logs), start) && TickFits(days[|logs| - 1], Last(turns), Last(logs))
          && Last(logs).states[0] == Reached(Front(logs), start))
  }

  lemma DaysFitNext(days: seq<Day>, turns: seq<Turn>, logs: seq<TickLog>, start: State, turn: Turn, log: TickLog)
    requires DaysFit(days, turns, logs, start) && |turns| < |days| && TickFits(days[|turns|], turn, log)
    requires log.states[0] == Reached(logs, start)
    ensures DaysFit(days, turns + [turn], logs + [log], start) && Reached(logs + [log], start) == log.after
  {
    DaysFitLast(days, turns + [turn], logs + [log], start, turns, logs, days[|turns|], turn, log);
  }

  lemma DaysFitLast(days: seq<Day>, turns: seq<Turn>, logs: seq<TickLog>, start: State, turns0: seq<Turn>, logs0: seq<TickLog>,
                    day: Day, turn: Turn, log: TickLog)
    requires turns == turns0 + [turn] && logs == logs0 + [log] && |turns0| < |days| && day == days[|turns0|]
    requires DaysFit(days, turns0, logs0, start) && TickFits(day, turn, log) && log.states[0] == Reached(logs0, start)
    ensures DaysFit(days, turns, logs, start) && Reached(logs, start) == log.after
  {
    assert Front(turns) == turns0 && Front(logs) == logs0 && Last(turns) == turn && Last(logs) == log;
  }

  method AttemptTick(system: System, state: LocalState, tick: Tick, day: Day)
    returns (attempt: Option<Attempt>, ghost turn: Turn, ghost log: Option<Log>)
    requires system.Valid() && Workable(day)
    modifies system.disk, system.broker, state
    ensures system.Valid() && Follows(old(system.L()), old(system.O()), system.L(), system.O())
    ensures turn.before == old(state.payload) && turn.after == state.payload && turn.tick == tick
    ensures turn.attempt == attempt && Turned(turn) && TurnFits(day, turn, log)
    ensures if attempt.Some? then NewFirsts(old(system.O()), system.O(), attempt.value.run) else system.O() == old(system.O())
    ensures attempt.None? ==> log.None?
    ensures if log.Some? then Served(old(system.Now()), system.Now(), log.value) else system.Now() == old(system.Now())
  {
    ghost var before := state.payload;
    var run := StartAttempt(state, tick);
    if run.None? {
      LaterReflexive(system.O());
      return None, Turn(tick, before, None, Killed, state.payload), None;
    }
    var begun := state.payload;
    var end: RunEnd;
    end, log := Rebalanced(system, tick.session.value, run.value, day);
    EndAttempt(state, tick.session.value, run.value, end);
    ghost var a := AttemptMade(before, tick, end);
    attempt := Some(AttemptOf(begun, state.payload, end));
    turn := Turn(tick, before, attempt, end, state.payload);
  }

  /** What holds after the first ticks. */
  ghost predicate Operated(ticks: seq<Tick>, days: seq<Day>, i: nat, ends: seq<RunEnd>, when: seq<nat>, turns: seq<Turn>,
                           logs: seq<TickLog>, start: Payload, from: State, left: Payload, now: State, history: seq<Attempt>) {
    && Monitored(ticks, i, ends, when, turns, start, left, history)
    && |turns| == i && DaysFit(days, turns, logs, from) && Reached(logs, from) == now
  }

  lemma OperatedNext(ticks: seq<Tick>, days: seq<Day>, i: nat, ends: seq<RunEnd>, when: seq<nat>, turns: seq<Turn>,
                     logs: seq<TickLog>, start: Payload, from: State, left: Payload, history: seq<Attempt>, when': seq<nat>,
                     turn: Turn, log: TickLog, history': seq<Attempt>)
    requires i < |ticks| == |days| && log.states != []
    requires Operated(ticks, days, i, ends, when, turns, logs, start, from, left, log.states[0], history)
    requires Assessed(left, turn.before) && turn.tick == ticks[i] && Turned(turn) && TickFits(days[i], turn, log)
    requires history' == history + (if turn.attempt.Some? then [turn.attempt.value] else [])
    requires Accounts(turn.after, history') && Dated(ticks, when', history', i + 1, turn.after)
    ensures Operated(ticks, days, i + 1, ends + [turn.end], when', turns + [turn], logs + [log], start, from, turn.after, log.after, history')
  {
    DaysFitNext(days, turns, logs, from, turn, log);
    MonitoredNext(ticks, i, ends, when, turns, start, left, history, when', turn, history');
  }

  lemma OperatedEnds(ticks: seq<Tick>, days: seq<Day>, ends: seq<RunEnd>, when: seq<nat>, turns: seq<Turn>, logs: seq<TickLog>,
                     start: Payload, from: State, left: Payload, now: State, history: seq<Attempt>)
    requires Operated(ticks, days, |ticks|, ends, when, turns, logs, start, from, left, now, history)
    ensures Turns(ticks, ends, turns, start) && history == Made(turns) && left == Left(turns, start)
    ensures |logs| == |ticks| && DaysFit(days, turns, logs, from) && Reached(logs, from) == now
    ensures Accounts(left, history)
  {
    assert ticks[..|ticks|] == ticks;
  }

  /** Any run of the operation, on ticks in calendar order: the order system and the session file keep
      their invariants, every first order is of an attempt's run, and so every session has at most one
      first order per ticker and side, however often it was attempted. */
  method Operate(system: System, state: LocalState, ticks: seq<Tick>, days: seq<Day>)
    returns (history: seq<Attempt>, ghost turns: seq<Turn>, ghost ends: seq<RunEnd>, ghost logs: seq<TickLog>)
    requires system.Valid() && system.O() == [] && state.payload == Payload(None, None, None, 0)
    requires InCalendarOrder(ticks) && |days| == |ticks|
    requires forall i | 0 <= i < |ticks| :: ticks[i].newRun != "" && Workable(days[i])
    modifies system.disk, system.broker, state
    ensures system.Valid() && Accounts(state.payload, history) && AllAttempted(system.O(), history)
    ensures Turns(ticks, ends, turns, old(state.payload)) && history == Made(turns)
    ensures state.payload == Left(turns, old(state.payload))
    ensures OneEach(system.O(), history)
    ensures |logs| == |days| && DaysFit(days, turns, logs, old(system.Now()))
    ensures Reached(logs, old(system.Now())) == system.Now()
  {
    history, turns, ends, logs := [], [], [], [];
    ghost var start, when: seq<nat>, from := state.payload, [], system.Now();
    for i := 0 to |ticks|
      invariant system.Valid() && AllAttempted(system.O(), history)
      invariant Operated(ticks, days, i, ends, when, turns, logs, start, from, state.payload, system.Now(), history)
    {
      ghost var turn, when', log;
      ghost var left, before := state.payload, history;
      history, turn, when', log := OperateOne(system, state, ticks, days[i], history, i, when);
      OperatedNext(ticks, days, i, ends, when, turns, logs, start, from, left, before, when', turn, log, history);
      turns, ends, when, logs := turns + [turn], ends + [turn.end], when', logs + [log];
    }
    OperatedEnds(ticks, days, ends, when, turns, logs, start, from, state.payload, system.Now(), history);
    OneFirstOrderEach(system.L(), system.O(), state.payload, history);
  }
}
