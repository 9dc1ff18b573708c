/** The Gateway restart policy (ops/scripts/gateway_auth_watchdog.py): a sliding-window limit kept in
    a file that is written before any restart. */
module GatewayWatchdog {

  const FAILURE_THRESHOLD: nat := 3
  const RESTART_COOLDOWN := 900.0
  const RESTART_WINDOW := 3600.0
  const MAX_RESTARTS: nat := 2
  const ALERT_INTERVAL := 900.0

  datatype Status = Authenticated | Disabled | ConfigurationError | Unavailable | ProbeError

  datatype Alert = NoAlert | RecoveredAlert | ConfigurationAlert | WaitingAlert | RestartAlert

  datatype Saved = Saved(failures: nat, incident: bool, lastAlert: real, restarts: seq<real>)

  function InWindow(restarts: seq<real>, now: real): seq<real> {
    if restarts == [] then []
    else
      var last := restarts[|restarts| - 1];
      InWindow(restarts[..|restarts| - 1], now) + (if now - last < RESTART_WINDOW then [last] else [])
  }

  class State {
    var failures: nat
    var incident: bool
    var lastAlert: real
    var restarts: seq<real>

    constructor (saved: Saved)
      ensures View() == saved
    {
      failures, incident, lastAlert, restarts := saved.failures, saved.incident, saved.lastAlert, saved.restarts;
    }

    function View(): Saved
      reads this
    {
      Saved(failures, incident, lastAlert, restarts)
    }

    /** Update the policy before any restart, and say whether to restart.  A restart needs the third
        failure in a row, a free place in the window, and the cooldown to be over. */
    method Decide(status: Status, now: real) returns (restart: bool, alert: Alert)
      requires !status.ProbeError?
      modifies this
      ensures restart ==> status.Unavailable? && alert.RestartAlert?
      ensures restart <==>
                && status.Unavailable? && old(failures) + 1 >= FAILURE_THRESHOLD
                && |InWindow(old(restarts), now)| < MAX_RESTARTS
                && (InWindow(old(restarts), now) != [] ==>
                      now - InWindow(old(restarts), now)[|InWindow(old(restarts), now)| - 1] >= RESTART_COOLDOWN)
      ensures restarts == InWindow(old(restarts), now) + (if restart then [now] else [])
      ensures failures == if status.Unavailable? && !restart then old(failures) + 1 else 0
      ensures alert.WaitingAlert? || alert.ConfigurationAlert? ==> !restart && lastAlert == now
      ensures alert.WaitingAlert? ==> now - old(lastAlert) >= ALERT_INTERVAL
      ensures alert.RecoveredAlert? ==> status.Authenticated? && old(incident) && !incident
    {
      restarts := InWindow(restarts, now);
      match status {
        case Authenticated =>
          alert := if incident then RecoveredAlert else NoAlert;
          failures, incident := 0, false;
          return false, alert;
        case Disabled =>
          failures, incident := 0, false;
          return false, NoAlert;
        case ConfigurationError =>
          failures := 0;
          alert := if !incident || now - lastAlert >= ALERT_INTERVAL then ConfigurationAlert else NoAlert;
          incident := true;
          if !alert.NoAlert? {
            lastAlert := now;
          }
          return false, alert;
        case Unavailable =>
      }
      failures := failures + 1;
      if failures < FAILURE_THRESHOLD {
        return false, NoAlert;
      }
      incident := true;
      var cooldown := restarts != [] && now - restarts[|restarts| - 1] < RESTART_COOLDOWN;
      if cooldown || |restarts| >= MAX_RESTARTS {
        alert := if now - lastAlert >= ALERT_INTERVAL then WaitingAlert else NoAlert;
        if !alert.NoAlert? {
          lastAlert := now;
        }
        return false, alert;
      }
      restarts := restarts + [now];
      failures, incident, lastAlert := 0, true, now;
      return true, RestartAlert;
    }
  }

  /** The durable policy file. */
  class StateFile {
    var saved: Saved

    constructor ()
      ensures saved == Saved(0, false, 0.0, [])
    {
      saved := Saved(0, false, 0.0, []);
    }
  }

  /** A tick whose state was saved: what the probe said and whether a restart was decided. */
  datatype Entry = Entry(now: real, status: Status, restart: bool)

  /** What a tick meets: the probe's answer, the clock, and where the process dies, if it does. */
  datatype Death = Survives | BeforeSave | BeforeRestart
  datatype Probe = Probe(status: Status, now: real, death: Death)

  /** Load, decide, save, and only then restart; `e` is the saved tick, if the process lived to save it. */
  method Tick(file: StateFile, probe: Probe) returns (saved: bool, e: Entry, restarted: bool)
    modifies file
    ensures saved <==> !probe.death.BeforeSave?
    ensures !saved ==> file.saved == old(file.saved)
    ensures saved ==> Saves(old(file.saved), file.saved, e)
    ensures Logs(probe, e) && (restarted <==> saved && e.restart && probe.death.Survives?)
  {
    var state := new State(file.saved);
    var restart := false;
    if probe.status.ProbeError? {
      state.failures := 0;
    } else {
      var alert;
      restart, alert := state.Decide(probe.status, probe.now);
    }
    e := Entry(probe.now, probe.status, restart);
    if probe.death.BeforeSave? {
      return false, e, false;
    }
    file.saved := state.View();
    return true, e, restart && probe.death.Survives?;
  }

  /** The entry is of this probe. */
  predicate Logs(probe: Probe, e: Entry) {
    e.now == probe.now && e.status == probe.status
  }

  /** One saved tick. */
  ghost predicate Saves(before: Saved, after: Saved, e: Entry) {
    && (e.restart <==>
          && e.status.Unavailable? && before.failures + 1 >= FAILURE_THRESHOLD
          && |InWindow(before.restarts, e.now)| < MAX_RESTARTS
          && (InWindow(before.restarts, e.now) != [] ==>
                e.now - InWindow(before.restarts, e.now)[|InWindow(before.restarts, e.now)| - 1] >= RESTART_COOLDOWN))
    && after.restarts == (if e.status.ProbeError? then before.restarts
                          else InWindow(before.restarts, e.now) + (if e.restart then [e.now] else []))
    && after.failures == if e.status.Unavailable? && !e.restart then before.failures + 1 else 0
  }

  // ---- all ticks ----

  /** The times of the decided restarts. */
  function RestartTimes(log: seq<Entry>): seq<real> {
    if log == [] then []
    else
      var last := log[|log| - 1];
      RestartTimes(log[..|log| - 1]) + (if last.restart then [last.now] else [])
  }

  predicate Ascending(xs: seq<real>) {
    forall i, j | 0 <= i < j < |xs| :: xs[i] <= xs[j]
  }

  /** Any two restarts are a quarter of an hour apart, and any three span an hour. */
  predicate Limited(times: seq<real>) {
    forall i, j | 0 <= i < j < |times| ::
      times[j] - times[i] >= RESTART_COOLDOWN && (i + 2 <= j ==> times[j] - times[i] >= RESTART_WINDOW)
  }

  /** Every restart ends at least three saved `unavailable` ticks in a row, none of the others a restart. */
  predicate Earned(log: seq<Entry>) {
    forall k | 0 <= k < |log| && log[k].restart ::
      && k >= FAILURE_THRESHOLD - 1
      && forall j | k - FAILURE_THRESHOLD < j <= k :: log[j].status.Unavailable? && (j < k ==> !log[j].restart)
  }

  /** `kept` is the end of `times`, and what is before it is an hour old. */
  ghost predicate Recent(kept: seq<real>, times: seq<real>, now: real) {
    && Ascending(times) && (forall i | 0 <= i < |times| :: times[i] <= now)
    && |kept| <= |times| && kept == times[|times| - |kept|..]
    && (forall i | 0 <= i < |times| - |kept| :: now - times[i] >= RESTART_WINDOW)
  }

  ghost predicate FailingSince(log: seq<Entry>, failures: nat) {
    failures <= |log| && forall j | |log| - failures <= j < |log| :: log[j].status.Unavailable? && !log[j].restart
  }

  /** The file knows the restarts of the last hour and the failures in a row. */
  ghost predicate Remembers(saved: Saved, log: seq<Entry>, now: real) {
    Recent(saved.restarts, RestartTimes(log), now) && FailingSince(log, saved.failures)
  }

  lemma {:induction false} AllOld(xs: seq<real>, now: real)
    requires Ascending(xs) && xs != [] && now - xs[|xs| - 1] >= RESTART_WINDOW
    ensures InWindow(xs, now) == []
  {
    if |xs| > 1 {
      AllOld(xs[..|xs| - 1], now);
    } else {
      assert xs[..0] == [];
    }
  }

  lemma SuffixNext(init: seq<real>, kept: seq<real>, last: real, xs: seq<real>)
    requires |kept| <= |init| && kept == init[|init| - |kept|..] && xs == init + [last]
    ensures kept + [last] == xs[|xs| - |kept| - 1..]
  {
  }

  /** On ascending stamps the window keeps a suffix: exactly the stamps of the last hour. */
  lemma {:induction false} WindowIsSuffix(xs: seq<real>, now: real)
    requires Ascending(xs)
    ensures |InWindow(xs, now)| <= |xs| && InWindow(xs, now) == xs[|xs| - |InWindow(xs, now)|..]
    ensures forall i | 0 <= i < |xs| :: i < |xs| - |InWindow(xs, now)| <==> now - xs[i] >= RESTART_WINDOW
  {
    if xs != [] {
      var n := |xs| - 1;
      if now - xs[n] >= RESTART_WINDOW {
        AllOld(xs, now);
      } else {
        var init := xs[..n];
        WindowIsSuffix(init, now);
        SuffixNext(init, InWindow(init, now), xs[n], xs);
      }
    }
  }

  lemma RecentLater(kept: seq<real>, times: seq<real>, now: real, later: real)
    requires Recent(kept, times, now) && now <= later
    ensures Recent(kept, times, later) && Recent(InWindow(kept, later), times, later)
  {
    var n := |times| - |kept|;
    assert forall i | 0 <= i < |kept| :: kept[i] == times[n + i];
    WindowIsSuffix(kept, later);
    var window := InWindow(kept, later);
    assert window == times[|times| - |window|..];
    forall i | 0 <= i < |times| - |window| ensures later - times[i] >= RESTART_WINDOW {
      assert i >= n ==> times[i] == kept[i - n];
    }
  }

  lemma RecentGrows(kept: seq<real>, times: seq<real>, now: real)
    requires Recent(kept, times, now)
    ensures Recent(kept + [now], times + [now], now)
  {
  }

  lemma LimitedNext(kept: seq<real>, times: seq<real>, now: real)
    requires Limited(times) && Recent(kept, times, now) && |kept| < MAX_RESTARTS
    requires kept != [] ==> now - kept[|kept| - 1] >= RESTART_COOLDOWN
    ensures Limited(times + [now])
  {
    var n := |times|;
    forall i | 0 <= i < n ensures now - times[i] >= RESTART_COOLDOWN && (i + 1 < n ==> now - times[i] >= RESTART_WINDOW) {
      if i >= n - |kept| {
        assert times[n - 1] == kept[|kept| - 1];
      }
    }
  }

  lemma EarnedNext(log: seq<Entry>, e: Entry, failures: nat)
    requires Earned(log) && FailingSince(log, failures)
    requires e.restart ==> e.status.Unavailable? && failures + 1 >= FAILURE_THRESHOLD
    ensures Earned(log + [e])
    ensures FailingSince(log + [e], if e.status.Unavailable? && !e.restart then failures + 1 else 0)
  {
    var all := log + [e];
    forall k | 0 <= k < |all| && all[k].restart
      ensures k >= FAILURE_THRESHOLD - 1
      ensures forall j | k - FAILURE_THRESHOLD < j <= k :: all[j].status.Unavailable? && (j < k ==> !all[j].restart)
    {
      if k < |log| {
        assert log[k].restart;
        assert forall j | 0 <= j <= k :: all[j] == log[j];
      }
    }
  }

  lemma RestartNext(kept: seq<real>, times: seq<real>, now: real, later: real, restart: bool)
    requires Recent(kept, times, now) && now <= later && Limited(times)
    requires restart ==> |InWindow(kept, later)| < MAX_RESTARTS
    requires restart && InWindow(kept, later) != [] ==> later - InWindow(kept, later)[|InWindow(kept, later)| - 1] >= RESTART_COOLDOWN
    ensures Recent(kept, times, later)
    ensures var more := if restart then [later] else [];
            Recent(InWindow(kept, later) + more, times + more, later) && Limited(times + more)
  {
    RecentLater(kept, times, now, later);
    if restart {
      RecentGrows(InWindow(kept, later), times, later);
      LimitedNext(InWindow(kept, later), times, later);
    } else {
      assert times + [] == times && InWindow(kept, later) + [] == InWindow(kept, later);
    }
  }

  lemma SavedNext(saved: Saved, saved': Saved, log: seq<Entry>, e: Entry, now: real)
    requires Remembers(saved, log, now) && now <= e.now && Saves(saved, saved', e)
    requires Limited(RestartTimes(log)) && Earned(log)
    ensures Remembers(saved', log + [e], e.now)
    ensures Limited(RestartTimes(log + [e])) && Earned(log + [e])
  {
    assert (log + [e])[..|log|] == log;
    RestartNext(saved.restarts, RestartTimes(log), now, e.now, e.restart);
    EarnedNext(log, e, saved.failures);
    assert RestartTimes(log) + [] == RestartTimes(log);
  }

  /** The performed restarts are some of the decided ones, in order. */
  ghost predicate Among(performed: seq<real>, places: seq<nat>, times: seq<real>) {
    && |places| == |performed|
    && (forall j | 0 <= j < |places| :: places[j] < |times| && performed[j] == times[places[j]])
    && forall i, j | 0 <= i < j < |places| :: places[i] < places[j]
  }

  lemma {:induction false} AmongIsLimited(performed: seq<real>, places: seq<nat>, times: seq<real>)
    requires Among(performed, places, times) && Limited(times)
    ensures Limited(performed)
  {
    forall i, j | 0 <= i < j < |performed|
      ensures performed[j] - performed[i] >= RESTART_COOLDOWN
      ensures i + 2 <= j ==> performed[j] - performed[i] >= RESTART_WINDOW
    {
      assert places[i] < places[j];
      if i + 2 <= j {
        assert places[i] < places[i + 1] < places[j];
      }
    }
  }

  /** What holds after every tick. */
  ghost predicate Watching(saved: Saved, log: seq<Entry>, now: real, performed: seq<real>, places: seq<nat>) {
    && Remembers(saved, log, now) && Limited(RestartTimes(log)) && Earned(log)
    && Among(performed, places, RestartTimes(log))
  }

  lemma WatchingNext(saved: Saved, saved': Saved, log: seq<Entry>, e: Entry, now: real, performed: seq<real>,
                     places: seq<nat>)
    requires Watching(saved, log, now, performed, places) && now <= e.now && Saves(saved, saved', e)
    ensures Watching(saved', log + [e], e.now, performed, places)
    ensures e.restart ==> Watching(saved', log + [e], e.now, performed + [e.now], places + [|RestartTimes(log)|])
  {
    SavedNext(saved, saved', log, e, now);
    assert (log + [e])[..|log|] == log;
    AmongGrows(performed, places, RestartTimes(log), e.now);
    assert !e.restart ==> RestartTimes(log + [e]) == RestartTimes(log);
  }

  lemma AmongGrows(performed: seq<real>, places: seq<nat>, times: seq<real>, time: real)
    requires Among(performed, places, times)
    ensures Among(performed, places, times + [time]) && Among(performed + [time], places + [|times|], times + [time])
  {
  }

  /** The whole record: one entry of the log for every probe whose tick lived to save, in order, decided by
      the state that the entry before it left; and of the restarts decided exactly those performed whose
      process lived to do it. */
  ghost predicate Whole(probes: seq<Probe>, log: seq<Entry>, states: seq<Saved>, performed: seq<real>) {
    && |states| == |log| + 1
    && if probes == [] then log == [] && performed == []
       else
         var probe, before := probes[|probes| - 1], probes[..|probes| - 1];
         if probe.death.BeforeSave? then Whole(before, log, states, performed)
         else
           && log != []
           && var n := |log| - 1;
              && Logs(probe, log[n]) && Saves(states[n], states[n + 1], log[n])
              && if log[n].restart && probe.death.Survives?
                 then performed != [] && performed[|performed| - 1] == log[n].now
                      && Whole(before, log[..n], states[..n + 1], performed[..|performed| - 1])
                 else Whole(before, log[..n], states[..n + 1], performed)
  }

  lemma WholeSame(probes: seq<Probe>, probe: Probe, log: seq<Entry>, states: seq<Saved>, performed: seq<real>)
    requires Whole(probes, log, states, performed) && probe.death.BeforeSave?
    ensures Whole(probes + [probe], log, states, performed)
  {
    assert (probes + [probe])[..|probes|] == probes;
  }

  lemma WholeNext(probes: seq<Probe>, probe: Probe, log: seq<Entry>, states: seq<Saved>, performed: seq<real>,
                  e: Entry, after: Saved)
    requires Whole(probes, log, states, performed) && !probe.death.BeforeSave?
    requires Logs(probe, e) && Saves(states[|log|], after, e)
    ensures e.restart && probe.death.Survives? ==> Whole(probes + [probe], log + [e], states + [after], performed + [e.now])
    ensures !(e.restart && probe.death.Survives?) ==> Whole(probes + [probe], log + [e], states + [after], performed)
  {
    var n := |log|;
    assert (probes + [probe])[..|probes|] == probes && (log + [e])[..n] == log && (states + [after])[..n + 1] == states;
    assert (performed + [e.now])[..|performed|] == performed;
  }

  /** Over any run of ticks, whatever the probe answers and wherever the process dies, as long as the
      clock does not go back: the restarts performed are limited, each was decided and saved before,
      and each decision was earned.  `log` has every saved tick, `states` what each left in the file,
      and `performed` every decided restart whose process lived to do it. */
  method Watch(file: StateFile, probes: seq<Probe>)
    returns (log: seq<Entry>, performed: seq<real>, ghost places: seq<nat>, ghost states: seq<Saved>)
    requires file.saved == Saved(0, false, 0.0, [])
    requires forall i, j | 0 <= i < j < |probes| :: probes[i].now <= probes[j].now
    modifies file
    ensures Whole(probes, log, states, performed) && states[0] == old(file.saved) && states[|log|] == file.saved
    ensures Earned(log) && Among(performed, places, RestartTimes(log))
    ensures Limited(performed)
  {
    log, performed, places, states := [], [], [], [file.saved];
    ghost var now := if probes == [] then 0.0 else probes[0].now;
    for i := 0 to |probes|
      invariant Watching(file.saved, log, now, performed, places)
      invariant i < |probes| ==> now <= probes[i].now
      invariant Whole(probes[..i], log, states, performed) && states[0] == old(file.saved)
      invariant states[|log|] == file.saved
    {
      assert probes[..i + 1] == probes[..i] + [probes[i]];
      log, performed, now, places, states := TickAndLog(file, probes[i], log, performed, now, places, probes[..i], states);
    }
    assert probes[..|probes|] == probes;
    AmongIsLimited(performed, places, RestartTimes(log));
  }

  method TickAndLog(file: StateFile, probe: Probe, log: seq<Entry>, performed: seq<real>, ghost now: real, ghost places: seq<nat>,
                    ghost probes: seq<Probe>, ghost states: seq<Saved>)
    returns (log': seq<Entry>, performed': seq<real>, ghost now': real, ghost places': seq<nat>, ghost states': seq<Saved>)
    requires Watching(file.saved, log, now, performed, places) && now <= probe.now
    requires Whole(probes, log, states, performed) && states[|log|] == file.saved
    modifies file
    ensures Watching(file.saved, log', now', performed', places') && now' <= probe.now
    ensures Whole(probes + [probe], log', states', performed') && states'[0] == states[0]
    ensures states'[|log'|] == file.saved
  {
    ghost var before := file.saved;
    var saved, e, restarted := Tick(file, probe);
    if !saved {
      WholeSame(probes, probe, log, states, performed);
      return log, performed, now, places, states;
    }
    WatchingNext(before, file.saved, log, e, now, performed, places);
    WholeNext(probes, probe, log, states, performed, e, file.saved);
    log', now', states' := log + [e], probe.now, states + [file.saved];
    if restarted {
      performed', places' := performed + [e.now], places + [|RestartTimes(log)|];
    } else {
      performed', places' := performed, places;
    }
  }
}
