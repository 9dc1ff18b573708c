/** Session attempts and their retries (src/poma/state.py and the monitor command of
    src/poma/cli.py). */
module SessionState {
  import opened Models

  datatype Status =
    | Running | RetryWait
    | Completed | CompletedWithOrderIssues | OrdersPending | NoOrdersAccepted | DryRun | Blocked | Failed

  predicate IsTerminal(status: Status) {
    !status.Running? && !status.RetryWait?
  }

  const MAX_ATTEMPTS: nat := 12

  /** The session part of rebalance_state.json. */
  datatype Payload = Payload(session: Option<string>, run: Option<string>, status: Option<Status>, attempts: nat)

  /** The file, rewritten whole by every update. */
  class LocalState {
    var payload: Payload

    constructor ()
      ensures payload == Payload(None, None, None, 0)
    {
      payload := Payload(None, None, None, 0);
    }

    function SessionStatus(session: string): (status: Option<Status>)
      reads this
    {
      if payload.session == Some(session) then payload.status else None
    }

    function SessionRunId(session: string): (run: Option<string>)
      reads this
    {
      if payload.session == Some(session) && payload.run != Some("") then payload.run else None
    }

    function SessionAttemptCount(session: string): nat
      reads this
    {
      if payload.session == Some(session) then payload.attempts else 0
    }

    /** Mark one attempt running; the same run goes on counting, another starts over. */
    method BeginSession(session: string, run: string) returns (attempt: nat)
      modifies this
      ensures payload == Payload(Some(session), Some(run), Some(Running), attempt)
      ensures attempt == 1 + if old(payload.session) == Some(session) && old(payload.run) == Some(run) then old(payload.attempts) else 0
    {
      var sameRun := payload.session == Some(session) && payload.run == Some(run);
      var previous := if sameRun then SessionAttemptCount(session) else 0;
      attempt := previous + 1;
      payload := payload.(session := Some(session), run := Some(run), status := Some(Running), attempts := attempt);
    }

    method MarkRetryWait(session: string, run: string)
      modifies this
      ensures payload == old(payload).(session := Some(session), run := Some(run), status := Some(RetryWait))
    {
      payload := payload.(session := Some(session), run := Some(run), status := Some(RetryWait));
    }

    method MarkSession(session: string, run: string, status: Status)
      modifies this
      ensures payload == old(payload).(session := Some(session), run := Some(run), status := Some(status))
    {
      payload := payload.(session := Some(session), run := Some(run), status := Some(status));
    }
  }

  // ---- what may be retried ----

  predicate IsInformational(r: OrderResult) {
    || r.status.IdempotentReplay? || r.status.ContractUnresolved?
    || ((r.status.PreSubmitted? || r.status.Submitted? || r.status.Filled?) && !r.hasMessage)
  }

  /** Nothing of it reached the broker. */
  predicate IsPreAcceptance(r: OrderResult) {
    && (r.status.QuoteBlocked? || r.status.BuyingPowerBlocked? || r.status.BrokerUnavailable? || r.status.OrderNotAccepted?)
    && r.orderId.None? && r.filled <= QTY_EPS
  }

  /** An outcome is retried exactly when some result was blocked before acceptance and every other
      problem-free result is informational. */
  method RetryableResults(results: seq<OrderResult>) returns (retry: bool)
    ensures retry <==> (exists i :: 0 <= i < |results| && IsPreAcceptance(results[i]) && !IsInformational(results[i]))
                       && forall i | 0 <= i < |results| :: IsInformational(results[i]) || IsPreAcceptance(results[i])
  {
    var retryable: nat := 0;
    for i := 0 to |results|
      invariant forall j | 0 <= j < i :: IsInformational(results[j]) || IsPreAcceptance(results[j])
      invariant retryable > 0 <==> exists j :: 0 <= j < i && IsPreAcceptance(results[j]) && !IsInformational(results[j])
    {
      if IsInformational(results[i]) {
        continue;
      }
      if IsPreAcceptance(results[i]) {
        retryable := retryable + 1;
        continue;
      }
      return false;
    }
    return retryable > 0;
  }

  // ---- monitor ----

  /** How the rebalance of one attempt ended: an outcome or an exception, each retryable or not, or
      the process was killed. */
  datatype RunEnd = Ended(status: Status, retryable: bool) | Threw(retryable: bool) | Killed

  /** What a monitor tick sees: the calendar's session date, whether it is time to start, and the run id
      a new session would get. */
  datatype Tick = Tick(session: Option<string>, shouldRun: bool, newRun: string)

  /** An outcome that is not retried is a terminal status. */
  predicate Conclusive(end: RunEnd) {
    end.Ended? ==> IsTerminal(end.status)
  }

  /** `closed` says that the attempt left its session with a terminal status. */
  datatype Attempt = Attempt(session: string, run: string, number: nat, killed: bool, closed: bool)

  predicate Resuming(p: Payload, session: string) {
    p.session == Some(session) && p.status.Some? && !IsTerminal(p.status.value)
  }

  /** The tick makes an attempt: its session is not over, and was begun or is due. */
  predicate Due(p: Payload, tick: Tick) {
    && tick.session.Some?
    && (Resuming(p, tick.session.value) || (tick.shouldRun && (p.session == tick.session ==> p.status.None?)))
  }

  /** The run id of the attempt: that of the session begun, or a new one. */
  function RunFor(p: Payload, tick: Tick): string
    requires tick.session.Some?
  {
    if Resuming(p, tick.session.value) && p.run.Some? && p.run.value != "" then p.run.value else tick.newRun
  }

  /** What begin_session leaves in the file. */
  function Begun(p: Payload, session: string, run: string): Payload {
    Payload(Some(session), Some(run), Some(Running), 1 + if p.session == Some(session) && p.run == Some(run) then p.attempts else 0)
  }

  /** What the end of an attempt leaves in the file: nothing new if the process was killed. */
  function Concluded(p: Payload, end: RunEnd): Payload {
    match end
    case Killed => p
    case Ended(status, retryable) => p.(status := Some(if retryable && p.attempts < MAX_ATTEMPTS then RetryWait else status))
    case Threw(retryable) => p.(status := Some(if retryable && p.attempts < MAX_ATTEMPTS then RetryWait else Status.Failed))
  }

  /** One attempt and what it leaves in the file. */
  ghost predicate Attempted(before: Payload, after: Payload, a: Attempt) {
    && (before.session == Some(a.session) && before.status.Some? ==> !IsTerminal(before.status.value))
    && (Resuming(before, a.session) && before.run.Some? && before.run.value != "" ==> before.run == Some(a.run))
    && a.number == 1 + (if before.session == Some(a.session) && before.run == Some(a.run) then before.attempts else 0)
    && after.session == Some(a.session) && after.run == Some(a.run) && after.attempts == a.number && after.status.Some?
    && (a.closed <==> IsTerminal(after.status.value))
    && (if a.killed then after.status.value.Running?
        else IsTerminal(after.status.value) || (after.status.value.RetryWait? && a.number < MAX_ATTEMPTS))
  }

  /** Begin the attempt of a tick, if it makes one. */
  method StartAttempt(state: LocalState, tick: Tick) returns (run: Option<string>)
    modifies state
    ensures run.Some? <==> Due(old(state.payload), tick)
    ensures run.None? ==> state.payload == old(state.payload)
    ensures run.Some? ==> run.value == RunFor(old(state.payload), tick)
                          && state.payload == Begun(old(state.payload), tick.session.value, run.value)
  {
    if tick.session.None? {
      return None;
    }
    var session := tick.session.value;
    var status := state.SessionStatus(session);
    if status.Some? && IsTerminal(status.value) {
      return None;
    }
    var resuming := status.Some?;
    if !resuming && !tick.shouldRun {
      return None;
    }
    var kept := if resuming then state.SessionRunId(session) else None;
    run := Some(if kept.Some? then kept.value else tick.newRun);
    var number := state.BeginSession(session, run.value);
  }

  /** Record how the attempt of a run ended; a killed process records nothing. */
  method EndAttempt(state: LocalState, session: string, run: string, end: RunEnd)
    requires state.payload.session == Some(session) && state.payload.run == Some(run)
    modifies state
    ensures state.payload == Concluded(old(state.payload), end)
  {
    var number := state.SessionAttemptCount(session);
    match end {
      case Killed =>
      case Ended(outcome, retryable) =>
        if retryable && number < MAX_ATTEMPTS {
          state.MarkRetryWait(session, run);
        } else {
          state.MarkSession(session, run, outcome);
        }
      case Threw(retryable) =>
        if retryable && number < MAX_ATTEMPTS {
          state.MarkRetryWait(session, run);
        } else {
          state.MarkSession(session, run, Status.Failed);
        }
    }
  }

  function AttemptOf(begun: Payload, after: Payload, end: RunEnd): Attempt
    requires begun.session.Some? && begun.run.Some? && after.status.Some?
  {
    Attempt(begun.session.value, begun.run.value, begun.attempts, end.Killed?, IsTerminal(after.status.value))
  }

  /** A session begun on a due tick and concluded is one attempt. */
  lemma AttemptMade(before: Payload, tick: Tick, end: RunEnd) returns (a: Attempt)
    requires Due(before, tick) && Conclusive(end)
    ensures var begun := Begun(before, tick.session.value, RunFor(before, tick));
            a == AttemptOf(begun, Concluded(begun, end), end) && Attempted(before, Concluded(begun, end), a)
  {
    var begun := Begun(before, tick.session.value, RunFor(before, tick));
    a := AttemptOf(begun, Concluded(begun, end), end);
  }

  predicate EndsWith(after: Payload, status: Status, retryable: bool) {
    if retryable && after.attempts < MAX_ATTEMPTS then after.status == Some(RetryWait) else after.status == Some(status)
  }

  /** What one tick found in the file, did, how the attempt ended if it made one, and what it left there. */
  datatype Turn = Turn(tick: Tick, before: Payload, attempt: Option<Attempt>, end: RunEnd, after: Payload)

  /** One tick: an attempt when it is due, and nothing otherwise.  An attempt that was not killed waits for a
      retry exactly when it may be retried and was not the last one allowed; else its outcome is final. */
  ghost predicate Turned(t: Turn) {
    && (t.attempt.Some? <==> Due(t.before, t.tick))
    && (t.attempt.None? ==> t.after == t.before)
    && (t.attempt.Some? ==>
          && t.tick.session == Some(t.attempt.value.session) && Attempted(t.before, t.after, t.attempt.value)
          && t.attempt.value.run == RunFor(t.before, t.tick) && (t.attempt.value.killed <==> t.end.Killed?)
          && match t.end
             case Killed => t.after.status == Some(Running)
             case Ended(status, retryable) => EndsWith(t.after, status, retryable)
             case Threw(retryable) => EndsWith(t.after, Status.Failed, retryable))
  }

  method Monitor(state: LocalState, tick: Tick, end: RunEnd) returns (attempt: Option<Attempt>)
    requires Conclusive(end)
    modifies state
    ensures Turned(Turn(tick, old(state.payload), attempt, end, state.payload))
  {
    ghost var before := state.payload;
    var run := StartAttempt(state, tick);
    if run.None? {
      return None;
    }
    var begun := state.payload;
    EndAttempt(state, tick.session.value, run.value, end);
    ghost var a := AttemptMade(before, tick, end);
    attempt := Some(AttemptOf(begun, state.payload, end));
  }

  /** A pending session got its final terminal status; nothing else changed. */
  predicate Assessed(before: Payload, after: Payload) {
    || after == before
    || (before.status == Some(OrdersPending) && after == before.(status := after.status)
        && (after.status == Some(Completed) || after.status == Some(CompletedWithOrderIssues)))
  }

  /** reconcile-orders closes a pending session once its fills are assessed. */
  method AssessSession(state: LocalState, session: string, run: string, reached: Option<bool>)
    modifies state
    ensures Assessed(old(state.payload), state.payload)
    ensures var p := old(state.payload);
            state.payload ==
            if p.session == Some(session) && p.run == Some(run) && run != "" && p.status == Some(OrdersPending) && reached.Some? then
              p.(status := Some(if reached.value then Completed else CompletedWithOrderIssues))
            else p
  {
    if state.SessionRunId(session) == Some(run) && state.SessionStatus(session) == Some(OrdersPending) && reached.Some? {
      state.MarkSession(session, run, if reached.value then Completed else CompletedWithOrderIssues);
    }
  }

  // ---- all attempts of a session ----

  function AttemptsOf(history: seq<Attempt>, session: string): nat {
    if history == [] then 0
    else AttemptsOf(history[..|history| - 1], session) + (if history[|history| - 1].session == session then 1 else 0)
  }

  function KillsOf(history: seq<Attempt>, session: string): nat {
    if history == [] then 0
    else
      var last := history[|history| - 1];
      KillsOf(history[..|history| - 1], session) + (if last.session == session && last.killed then 1 else 0)
  }

  /** What holds of all attempts made so far. */
  ghost predicate Chronicle(history: seq<Attempt>) {
    && (forall d :: AttemptsOf(history, d) <= MAX_ATTEMPTS + KillsOf(history, d))
    && (forall i, j | 0 <= i < j < |history| && history[i].session == history[j].session :: history[i].run == history[j].run)
    && (forall i, j | 0 <= i < j < |history| && history[i].session == history[j].session :: !history[i].closed)
    && (forall i | 0 <= i < |history| :: history[i].run != "")
  }

  /** What the file knows of the session it is at. */
  ghost predicate Knows(p: Payload, history: seq<Attempt>) {
    && (p.session.None? ==> history == [])
    && (p.session.Some? ==>
          && p.run.Some? && p.status.Some? && AttemptsOf(history, p.session.value) == p.attempts > 0
          && (forall i | 0 <= i < |history| && history[i].session == p.session.value :: Some(history[i].run) == p.run)
          && p.run.value != ""
          && (!IsTerminal(p.status.value) ==>
                && p.attempts < MAX_ATTEMPTS + KillsOf(history, p.session.value)
                && forall i | 0 <= i < |history| && history[i].session == p.session.value :: !history[i].closed))
  }

  ghost predicate Accounts(p: Payload, history: seq<Attempt>) {
    Chronicle(history) && Knows(p, history)
  }

  lemma {:induction false} NoneOf(history: seq<Attempt>, session: string)
    requires forall i | 0 <= i < |history| :: history[i].session != session
    ensures AttemptsOf(history, session) == 0 && KillsOf(history, session) == 0
  {
    if history != [] {
      NoneOf(history[..|history| - 1], session);
    }
  }

  lemma CountsNext(history: seq<Attempt>, a: Attempt)
    ensures forall d :: AttemptsOf(history + [a], d) == AttemptsOf(history, d) + (if a.session == d then 1 else 0)
    ensures forall d :: KillsOf(history + [a], d) == KillsOf(history, d) + (if a.session == d && a.killed then 1 else 0)
  {
    assert (history + [a])[..|history|] == history;
  }

  /** What the file knew when an attempt began is enough to count it. */
  lemma AttemptCounts(p: Payload, p': Payload, history: seq<Attempt>, a: Attempt)
    requires Accounts(p, history) && Attempted(p, p', a)
    requires p.session != Some(a.session) ==> forall i | 0 <= i < |history| :: history[i].session != a.session
    ensures AttemptsOf(history, a.session) + 1 == a.number <= MAX_ATTEMPTS + KillsOf(history, a.session)
    ensures forall i | 0 <= i < |history| && history[i].session == a.session :: history[i].run == a.run && !history[i].closed
  {
    if p.session != Some(a.session) {
      NoneOf(history, a.session);
    }
  }

  /** One more attempt keeps the account, as long as no earlier session is reopened. */
  lemma AccountsNext(p: Payload, p': Payload, history: seq<Attempt>, a: Attempt)
    requires Accounts(p, history) && Attempted(p, p', a) && a.run != ""
    requires p.session != Some(a.session) ==> forall i | 0 <= i < |history| :: history[i].session != a.session
    ensures Accounts(p', history + [a])
    ensures AttemptsOf(history + [a], a.session) == a.number
  {
    AttemptCounts(p, p', history, a);
    CountsNext(history, a);
    ChronicleNext(history, a);
    KnowsNext(p, p', history, a);
  }

  lemma ChronicleNext(history: seq<Attempt>, a: Attempt)
    requires Chronicle(history) && a.run != ""
    requires AttemptsOf(history, a.session) < MAX_ATTEMPTS + KillsOf(history, a.session)
    requires forall i | 0 <= i < |history| && history[i].session == a.session :: history[i].run == a.run && !history[i].closed
    ensures Chronicle(history + [a])
  {
    BoundNext(history, a, history + [a]);
    PairsNext(history, a, history + [a]);
  }

  lemma BoundNext(history: seq<Attempt>, a: Attempt, all: seq<Attempt>)
    requires all == history + [a] && AttemptsOf(history, a.session) < MAX_ATTEMPTS + KillsOf(history, a.session)
    requires forall d :: AttemptsOf(history, d) <= MAX_ATTEMPTS + KillsOf(history, d)
    ensures forall d :: AttemptsOf(all, d) <= MAX_ATTEMPTS + KillsOf(all, d)
  {
    CountsNext(history, a);
  }

  lemma PairsNext(history: seq<Attempt>, a: Attempt, all: seq<Attempt>)
    requires all == history + [a] && a.run != ""
    requires forall i | 0 <= i < |history| && history[i].session == a.session :: history[i].run == a.run && !history[i].closed
    requires forall i, j | 0 <= i < j < |history| && history[i].session == history[j].session ::
               history[i].run == history[j].run && !history[i].closed
    requires forall i | 0 <= i < |history| :: history[i].run != ""
    ensures forall i, j | 0 <= i < j < |all| && all[i].session == all[j].session :: all[i].run == all[j].run && !all[i].closed
    ensures forall i | 0 <= i < |all| :: all[i].run != ""
  {
    AppendedAt(history, a, all);
  }

  lemma AppendedAt(history: seq<Attempt>, a: Attempt, all: seq<Attempt>)
    requires all == history + [a]
    ensures |all| == |history| + 1 && all[|history|] == a && forall i | 0 <= i < |history| :: all[i] == history[i]
  {
  }

  lemma KnowsNext(p: Payload, p': Payload, history: seq<Attempt>, a: Attempt)
    requires Attempted(p, p', a) && a.run != ""
    requires AttemptsOf(history, a.session) + 1 == a.number <= MAX_ATTEMPTS + KillsOf(history, a.session)
    requires forall i | 0 <= i < |history| && history[i].session == a.session :: history[i].run == a.run && !history[i].closed
    ensures Knows(p', history + [a])
  {
    var all := history + [a];
    CountsNext(history, a);
    AppendedAt(history, a, all);
    OfThisRun(history, a, all);
  }

  lemma OfThisRun(history: seq<Attempt>, a: Attempt, all: seq<Attempt>)
    requires all == history + [a]
    requires forall i | 0 <= i < |history| && history[i].session == a.session :: history[i].run == a.run && !history[i].closed
    ensures forall i | 0 <= i < |all| && all[i].session == a.session :: all[i].run == a.run
    ensures !a.closed ==> forall i | 0 <= i < |all| && all[i].session == a.session :: !all[i].closed
  {
  }

  /** A later tick, in calendar order: a session that was left does not come back. */
  predicate InCalendarOrder(ticks: seq<Tick>) {
    forall i, j, k | 0 <= i < j < k < |ticks| && ticks[i].session.Some? && ticks[j].session.Some?
                     && ticks[i].session == ticks[k].session :: ticks[j].session == ticks[i].session
  }

  /** Which tick made which attempt. */
  ghost predicate Dated(ticks: seq<Tick>, when: seq<nat>, history: seq<Attempt>, i: nat, p: Payload) {
    && |when| == |history| && i <= |ticks|
    && (forall j | 0 <= j < |when| :: when[j] < i && ticks[when[j]].session == Some(history[j].session))
    && (forall j, k | 0 <= j < k < |when| :: when[j] < when[k])
    && (p.session.None? ==> history == [])
    && (p.session.Some? ==> when != [] && ticks[when[|when| - 1]].session == p.session)
  }

  /** What the turns leave in the file. */
  function Left(turns: seq<Turn>, start: Payload): Payload {
    if turns == [] then start else turns[|turns| - 1].after
  }

  /** Every tick of a run in order, each on what the last one left, pending sessions assessed in between. */
  ghost predicate Turns(ticks: seq<Tick>, ends: seq<RunEnd>, turns: seq<Turn>, start: Payload) {
    && |turns| == |ticks| == |ends|
    && (turns != [] ==>
          var n := |turns| - 1;
          && Turns(ticks[..n], ends[..n], turns[..n], start)
          && turns[n].tick == ticks[n] && turns[n].end == ends[n] && Turned(turns[n])
          && Assessed(Left(turns[..n], start), turns[n].before))
  }

  /** The attempts made, in order. */
  function Made(turns: seq<Turn>): seq<Attempt> {
    if turns == [] then []
    else
      var last := turns[|turns| - 1];
      Made(turns[..|turns| - 1]) + (if last.attempt.Some? then [last.attempt.value] else [])
  }

  /** The first ticks of a run went through these turns, with these attempts. */
  ghost predicate Ticked(ticks: seq<Tick>, i: nat, ends: seq<RunEnd>, turns: seq<Turn>, start: Payload, left: Payload,
                         history: seq<Attempt>) {
    i <= |ticks| && Turns(ticks[..i], ends, turns, start) && left == Left(turns, start) && history == Made(turns)
  }

  lemma TickedNext(ticks: seq<Tick>, i: nat, ends: seq<RunEnd>, turns: seq<Turn>, start: Payload, left: Payload,
                   history: seq<Attempt>, turn: Turn)
    requires i < |ticks| && Ticked(ticks, i, ends, turns, start, left, history)
    requires Assessed(left, turn.before) && turn.tick == ticks[i] && Turned(turn)
    ensures Ticked(ticks, i + 1, ends + [turn.end], turns + [turn], start, turn.after,
                   history + (if turn.attempt.Some? then [turn.attempt.value] else []))
  {
    assert (turns + [turn])[..i] == turns && (ends + [turn.end])[..i] == ends && ticks[..i + 1][..i] == ticks[..i];
  }

  /** Over any run of monitor ticks, with pending sessions assessed in between, every attempt of a
      session has the same run id, no attempt follows one that closed the session, and there are at
      most twelve attempts beyond those that were killed.  `turns` are all of the ticks, and `history`
      all of their attempts. */
  method MonitorAll(state: LocalState, ticks: seq<Tick>, ends: seq<RunEnd>)
    returns (history: seq<Attempt>, ghost turns: seq<Turn>)
    requires state.payload == Payload(None, None, None, 0) && InCalendarOrder(ticks) && |ends| == |ticks|
    requires forall i | 0 <= i < |ticks| :: Conclusive(ends[i]) && ticks[i].newRun != ""
    modifies state
    ensures Turns(ticks, ends, turns, old(state.payload)) && history == Made(turns)
    ensures state.payload == Left(turns, old(state.payload))
    ensures Accounts(state.payload, history)
  {
    history, turns := [], [];
    ghost var start, when: seq<nat> := state.payload, [];
    for i := 0 to |ticks|
      invariant Monitored(ticks, i, ends[..i], when, turns, start, state.payload, history)
    {
      ghost var turn, when';
      ghost var left, before := state.payload, history;
      history, turn, when' := MonitorNext(state, ticks, ends[i], history, i, when);
      MonitoredNext(ticks, i, ends[..i], when, turns, start, left, before, when', turn, history);
      assert ends[..i + 1] == ends[..i] + [turn.end];
      turns, when := turns + [turn], when';
    }
    assert ticks[..|ticks|] == ticks && ends[..|ends|] == ends;
  }

  /** What holds after the first ticks. */
  ghost predicate Monitored(ticks: seq<Tick>, i: nat, ends: seq<RunEnd>, when: seq<nat>, turns: seq<Turn>, start: Payload,
                            left: Payload, history: seq<Attempt>) {
    && Accounts(left, history) && Dated(ticks, when, history, i, left)
    && Ticked(ticks, i, ends, turns, start, left, history)
  }

  lemma MonitoredNext(ticks: seq<Tick>, i: nat, ends: seq<RunEnd>, when: seq<nat>, turns: seq<Turn>, start: Payload,
                      left: Payload, history: seq<Attempt>, when': seq<nat>, turn: Turn, history': seq<Attempt>)
    requires i < |ticks| && Monitored(ticks, i, ends, when, turns, start, left, history)
    requires Assessed(left, turn.before) && turn.tick == ticks[i] && Turned(turn)
    requires history' == history + (if turn.attempt.Some? then [turn.attempt.value] else [])
    requires Accounts(turn.after, history') && Dated(ticks, when', history', i + 1, turn.after)
    ensures Monitored(ticks, i + 1, ends + [turn.end], when', turns + [turn], start, turn.after, history')
  {
    TickedNext(ticks, i, ends, turns, start, left, history, turn);
  }

  /** Assess what is pending, then tick. */
  method MonitorNext(state: LocalState, ticks: seq<Tick>, end: RunEnd, history: seq<Attempt>, i: nat,
                     ghost when: seq<nat>)
    returns (history': seq<Attempt>, ghost turn: Turn, ghost when': seq<nat>)
    requires InCalendarOrder(ticks) && i < |ticks| && Conclusive(end) && ticks[i].newRun != ""
    requires Accounts(state.payload, history) && Dated(ticks, when, history, i, state.payload)
    modifies state
    ensures Assessed(old(state.payload), turn.before) && turn.after == state.payload
    ensures turn.tick == ticks[i] && turn.end == end && Turned(turn)
    ensures history' == history + (if turn.attempt.Some? then [turn.attempt.value] else [])
    ensures Accounts(state.payload, history') && Dated(ticks, when', history', i + 1, state.payload)
  {
    var session, run, reached := *, *, *;
    ghost var was := state.payload;
    AssessSession(state, session, run, reached);
    AssessedAccounts(was, state.payload, ticks, when, history, i);
    ghost var before := state.payload;
    var attempt := Monitor(state, ticks[i], end);
    turn := Turn(ticks[i], before, attempt, end, state.payload);
    when' := TurnAccounts(ticks, when, history, i, turn);
    history' := history + (if attempt.Some? then [attempt.value] else []);
  }

  /** A tick keeps the account and the dates. */
  lemma TurnAccounts(ticks: seq<Tick>, when: seq<nat>, history: seq<Attempt>, i: nat, t: Turn) returns (when': seq<nat>)
    requires InCalendarOrder(ticks) && i < |ticks| && ticks[i].newRun != "" && t.tick == ticks[i] && Turned(t)
    requires Accounts(t.before, history) && Dated(ticks, when, history, i, t.before)
    ensures var history' := history + (if t.attempt.Some? then [t.attempt.value] else []);
            Accounts(t.after, history') && Dated(ticks, when', history', i + 1, t.after)
  {
    if t.attempt.Some? {
      NeverReopened(ticks, when, history, i, t.before, t.attempt.value);
      AccountsNext(t.before, t.after, history, t.attempt.value);
      DatedNext(ticks, when, history, i, t.before, t.after, t.attempt.value);
      when' := when + [i];
    } else {
      when' := when;
      assert history + [] == history;
    }
  }

  lemma NeverReopened(ticks: seq<Tick>, when: seq<nat>, history: seq<Attempt>, i: nat, p: Payload, a: Attempt)
    requires InCalendarOrder(ticks) && i < |ticks| && ticks[i].session == Some(a.session)
    requires Dated(ticks, when, history, i, p)
    ensures p.session != Some(a.session) ==> forall j | 0 <= j < |history| :: history[j].session != a.session
  {
    if p.session.Some? && p.session != Some(a.session) {
      var last := when[|when| - 1];
      forall j | 0 <= j < |history| ensures history[j].session != a.session {
        assert when[j] <= last;
      }
    }
  }

  lemma AssessedAccounts(p: Payload, p': Payload, ticks: seq<Tick>, when: seq<nat>, history: seq<Attempt>, i: nat)
    requires Assessed(p, p') && Accounts(p, history) && Dated(ticks, when, history, i, p)
    ensures Accounts(p', history) && Dated(ticks, when, history, i, p')
  {
  }

  lemma DatedNext(ticks: seq<Tick>, when: seq<nat>, history: seq<Attempt>, i: nat, p: Payload, p': Payload, a: Attempt)
    requires Dated(ticks, when, history, i, p) && i < |ticks| && ticks[i].session == Some(a.session) == p'.session
    ensures Dated(ticks, when + [i], history + [a], i + 1, p')
  {
  }
}
