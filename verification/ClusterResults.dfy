/** The promises of the HTTP cluster, stated over every run or every update. */
module ClusterResults {
  import opened Wrappers
  import opened Fsm
  import opened HttpConfig
  import opened CrashTracker
  import opened Entries
  import opened Cluster
  import opened ClusterSafety

  // ---------------------------------------------------------------- every run

  lemma InitialInv(o: Options, now: Time)
    ensures Inv(o, Initial(now))
  {}

  lemma ReachableInv(o: Options, now: Time, events: seq<Event>)
    requires o.Valid() && IsRun(o, Initial(now), events)
    ensures Inv(o, Reach(o, Initial(now), events))
  {
    InitialInv(o, now);
    RunKeepsInv(o, Initial(now), events);
  }

  /** After every run, a live server is the runner of exactly one entry, its own id's,
  and no id has two live servers. */
  lemma EveryServerIsOwned(o: Options, now: Time, events: seq<Event>)
    requires o.Valid() && IsRun(o, Initial(now), events)
    ensures var s := Reach(o, Initial(now), events);
      && (forall r, id :: s.world.Live(r) ==> (Carries(s.servers, id, Some(r)) <==> id == r.id))
      && (forall r, q :: s.world.Live(r) && s.world.Live(q) && r.id == q.id ==> r == q)
      && (forall id :: id in s.servers && s.servers[id].runner.Some? ==> s.servers[id].runner.value !in s.world.stopped)
  {
    ReachableInv(o, now, events);
    var s := Reach(o, Initial(now), events);
    forall r | s.world.Live(r) ensures Carries(s.servers, r.id, Some(r)) {}
  }

  /** After every run that neither cancelled the context nor shut down, every entry
  without a runner has a supervisor that passes all three guards and will restart it. */
  lemma NoCrashIsForgotten(o: Options, now: Time, events: seq<Event>, id: Id)
    requires o.Valid() && IsRun(o, Initial(now), events)
    requires var s := Reach(o, Initial(now), events); s.ctxLive && !s.down && Carries(s.servers, id, None)
    ensures var s := Reach(o, Initial(now), events);
      exists restart :: restart in s.restarts && restart.id == id && MayRestart(s, restart)
  {
    ReachableInv(o, now, events);
    var s := Reach(o, Initial(now), events);
    assert s.newest[id] in s.restarts;
  }

  predicate SameRecord(b: Restart, c: Restart) { b.id == c.id && b.serial == c.serial }

  /** Generations identify supervisors as long as the id's crash record lives: a
  supervisor that passes the guards belongs to the latest crash exactly when the record
  it was scheduled in is still the live one. */
  lemma OnlyTheNewestCrashRestarts(o: Options, now: Time, events: seq<Event>, restart: Restart)
    requires o.Valid() && IsRun(o, Initial(now), events)
    requires var s := Reach(o, Initial(now), events); restart in s.restarts && MayRestart(s, restart)
    ensures var s := Reach(o, Initial(now), events);
      && restart.id in s.newest
      && (restart == s.newest[restart.id] <==> restart.serial == s.tracker[restart.id].serial)
    ensures var s := Reach(o, Initial(now), events);
      forall other :: other in s.restarts && other != restart && SameRecord(other, restart) ==> !MayRestart(s, other)
  {
    ReachableInv(o, now, events);
    var s := Reach(o, Initial(now), events);
    forall other | other in s.restarts && SameRecord(other, restart) && MayRestart(s, other) ensures other == restart {
      assert SameGeneration(other, restart);
    }
  }

  /** Nothing moves a cluster that has shut down: no server is started, no failure is
  recorded and the status stays, whatever late supervisors and exiting servers do. */
  lemma {:induction false} ShutdownIsFinal(o: Options, s: State, events: seq<Event>)
    requires o.Valid() && Inv(o, s) && s.down && IsRun(o, s, events)
    ensures var t := Reach(o, s, events);
      && t.down && t.servers == map[] && t.world.created == s.world.created
      && t.tracker == s.tracker && t.restarts <= s.restarts && t.status == s.status
    decreases |events|
  {
    if events != [] {
      StepKeepsInv(o, s, events[0]);
      ShutdownIsFinal(o, Apply(o, s, events[0]), events[1..]);
    }
  }

  /** Shutting down stops every live server; a Running cluster ends Stopped. */
  lemma ShutdownStopsEverything(o: Options, s: State)
    requires o.Valid() && Inv(o, s) && !s.down
    ensures var t := ApplyShutdown(o, s);
      && t.down && t.servers == map[] && t.tracker == s.tracker && t.restarts == s.restarts
      && (forall r :: !t.world.Live(r))
      && (s.status == Running ==> t.status == Stopped)
  {
    var t := ApplyShutdown(o, s);
    forall r ensures !t.world.Live(r) {
      if s.world.Live(r) { assert Carries(s.servers, r.id, Some(r)); }
    }
  }

  // ---------------------------------------------------------------- crashes

  /** A crash is acted on only while the crashed server is still the entry's runner; a
  server that was told to stop is not, so the error it returns changes nothing. */
  lemma StoppedServersDoNotCrash(o: Options, s: State, report: Report)
    requires o.Valid() && Inv(o, s) && report in s.reports && report.runner in s.world.stopped
    ensures ApplyFirst(o, s, report) == s.(reports := s.reports - {report})
  {}

  /** No crash is lost before it is looked at: its report stays until a supervisor takes it. */
  lemma {:induction false} CrashStaysReported(o: Options, s: State, events: seq<Event>, report: Report)
    requires IsRun(o, s, events) && report in s.reports
    ensures report in Reach(o, s, events).reports || First(report) in events
    decreases |events|
  {
    if events != [] && events[0] != First(report) {
      ReportStays(o, s, events[0], report);
      CrashStaysReported(o, Apply(o, s, events[0]), events[1..], report);
    }
  }

  lemma ReportStays(o: Options, s: State, e: Event, report: Report)
    requires report in s.reports && e != First(report)
    ensures report in Apply(o, s, e).reports
  {}

  lemma CrashIsReported(o: Options, s: State, r: Instance, events: seq<Event>)
    requires IsRun(o, Apply(o, s, Exit(r, true)), events)
    ensures var report := Report(r.id, r);
      report in Reach(o, Apply(o, s, Exit(r, true)), events).reports || First(report) in events
  {
    CrashStaysReported(o, Apply(o, s, Exit(r, true)), events, Report(r.id, r));
  }

  /** The same holds for a server that another one has replaced, or whose entry has gone. */
  lemma SupersededServersDoNotCrash(o: Options, s: State, report: Report)
    requires report.id in s.servers ==> s.servers[report.id].runner != Some(report.runner)
    ensures ApplyFirst(o, s, report) == s.(reports := s.reports - {report})
  {}

  /** The pruned list of a record is the window over everything recorded in it. */
  lemma FailuresAreTheWindow(o: Options, r: Record, now: Time)
    requires 0 < o.restartWindow && HistoryInv(o, r.failures, r.crashes, now)
    ensures var r' := WithFailure(r, now, o.restartWindow);
      r'.failures == After(r.crashes + [now], now - o.restartWindow) && |r'.failures| <= o.maxRestarts + 1
  {
    RecordingKeepsWindow(r.failures, r.crashes, now, o.restartWindow);
    var crashes := r.crashes + [now];
    assert crashes[|crashes| - 1] == now;
  }

  /** The crashes of the live record that fall into the window ending now, this one
  included. */
  function RecentCrashes(o: Options, s: State, id: Id): seq<Time> {
    After(RecordFor(s, id).crashes + [s.now], s.now - o.restartWindow)
  }

  /** The cluster escalates at the first crash that makes more than maxRestarts crashes
  of the record fall into the window that ends now, and only then: never later than at
  the (maxRestarts + 1)st. */
  lemma EscalatesExactlyOnCrashLoop(o: Options, s: State, report: Report)
    requires 0 < o.restartWindow && TrackerInv(o, s)
    requires Carries(s.servers, report.id, Some(report.runner))
    ensures
      var id, t := report.id, ApplyFirst(o, s, report);
      && |RecentCrashes(o, s, id)| <= o.maxRestarts + 1
      && (id !in t.servers <==> |RecentCrashes(o, s, id)| > o.maxRestarts)
      && (id !in t.servers ==> t.status == Error && t.servers == s.servers - {id} && t.tracker == s.tracker - {id})
      && (id !in t.servers ==> t.restarts == s.restarts && t.world == s.world)
      && (id in t.servers ==> t.status == s.status && t.tracker[id].failures == RecentCrashes(o, s, id))
  {
    RecentIsRecorded(o, s, report.id);
    ActsOnFailures(o, s, report);
  }

  lemma RecentIsRecorded(o: Options, s: State, id: Id)
    requires 0 < o.restartWindow && TrackerInv(o, s)
    ensures RecentCrashes(o, s, id) == WithFailure(RecordFor(s, id), s.now, o.restartWindow).failures
    ensures |RecentCrashes(o, s, id)| <= o.maxRestarts + 1
  {
    var r := RecordFor(s, id);
    assert HistoryInv(o, r.failures, r.crashes, s.now);
    FailuresAreTheWindow(o, r, s.now);
  }

  lemma ActsOnFailures(o: Options, s: State, report: Report)
    requires Carries(s.servers, report.id, Some(report.runner))
    ensures
      var id, t, r := report.id, ApplyFirst(o, s, report), WithFailure(RecordFor(s, report.id), s.now, o.restartWindow);
      if |r.failures| > o.maxRestarts
      then && t.status == Error && t.servers == s.servers - {id} && t.tracker == s.tracker - {id}
           && t.restarts == s.restarts && t.world == s.world
      else id in t.servers && t.status == s.status && id in t.tracker && t.tracker[id].failures == r.failures
  {}

  /** A crash that does not escalate leaves the entry without a runner and counts one more
  attempt and generation in the record, a new one if there was none. */
  lemma CrashClearsTheRuntime(o: Options, s: State, report: Report)
    requires Carries(s.servers, report.id, Some(report.runner))
    requires report.id in ApplyFirst(o, s, report).servers
    ensures
      var id, t := report.id, ApplyFirst(o, s, report);
      && t.servers == s.servers[id := s.servers[id].(runner := None)]
      && t.status == s.status && t.world == s.world && t.reports == s.reports - {report}
      && t.tracker.Keys == s.tracker.Keys + {id}
      && (forall k :: k in s.tracker && k != id ==> t.tracker[k] == s.tracker[k])
      && t.tracker[id].serial == (if id in s.tracker then s.tracker[id].serial else s.nextSerial)
      && t.tracker[id].attempts == 1 + (if id in s.tracker then s.tracker[id].attempts else 0)
      && t.tracker[id].gen == 1 + (if id in s.tracker then s.tracker[id].gen else 0)
      && t.tracker[id].crashes == (if id in s.tracker then s.tracker[id].crashes else []) + [s.now]
  {}

  /** It schedules exactly one restart, which passes the guards and waits the backoff of
  the attempt. */
  lemma CrashSchedulesOneRestart(o: Options, s: State, report: Report)
    requires NewestInv(s.newest, s.tracker, s.nextSerial) && GenerationsInv(s.restarts, s.newest)
    requires 0 < o.backoffInitial <= o.backoffMax && Carries(s.servers, report.id, Some(report.runner))
    requires report.id in ApplyFirst(o, s, report).servers
    ensures
      var id, t := report.id, ApplyFirst(o, s, report);
      && id in t.tracker && id in t.newest
      && t.newest[id] !in s.restarts && t.restarts == s.restarts + {t.newest[id]}
      && MayRestart(t, t.newest[id]) && t.newest[id].serial == t.tracker[id].serial
      && o.backoffInitial <= t.newest[id].delay <= o.backoffMax
      && t.newest[id].delay == o.Delay(t.tracker[id].attempts)
  {
    CrashClearsTheRuntime(o, s, report);
    SchedulesTheAttempt(o, s, report);
    AttemptWaits(o, ApplyFirst(o, s, report).tracker[report.id].attempts);
  }

  lemma AttemptWaits(o: Options, n: nat)
    requires 0 < o.backoffInitial <= o.backoffMax
    ensures o.backoffInitial <= Backoff(o.backoffInitial, o.backoffMax, n) <= o.backoffMax
    ensures Backoff(o.backoffInitial, o.backoffMax, n) == o.Delay(n)
  {
    BackoffBoundedAndMonotone(o.backoffInitial, o.backoffMax, n, n);
    BackoffIsIdealExactlyWhen(o.backoffInitial, o.backoffMax, n);
  }

  lemma SchedulesTheAttempt(o: Options, s: State, report: Report)
    requires Carries(s.servers, report.id, Some(report.runner))
    requires report.id in ApplyFirst(o, s, report).servers
    ensures
      var id, t := report.id, ApplyFirst(o, s, report);
      && id in t.tracker && id in t.newest
      && t.newest[id].id == id && t.newest[id].serial == t.tracker[id].serial && t.newest[id].gen == t.tracker[id].gen
      && t.newest[id].delay == Backoff(o.backoffInitial, o.backoffMax, t.tracker[id].attempts)
      && t.restarts == s.restarts + {t.newest[id]}
  {}

  /** Unless all three guards hold, the second half of a supervisor only ends the supervisor. */
  lemma StaleRestartChangesNothing(s: State, restart: Restart, outcome: Outcome, cancelled: bool)
    requires var id := restart.id;
      !(id in s.servers && s.servers[id].runner == None && id in s.tracker && s.tracker[id].gen == restart.gen)
    ensures ApplySecond(s, restart, outcome, cancelled) ==
      s.(restarts := s.restarts - {restart}, ctxLive := s.ctxLive && !cancelled)
  {}

  /** If they hold, a server that becomes ready is the runner of its entry; otherwise the
  entry goes, and the server is told to stop if there is one. */
  lemma RestartServes(s: State, restart: Restart, outcome: Outcome, cancelled: bool)
    requires MayRestart(s, restart)
    ensures var t, id := ApplySecond(s, restart, outcome, cancelled), restart.id;
      match outcome
      case FactoryError => t.servers == s.servers - {id} && t.world == s.world
      case Created(r, readiness) =>
        && t.servers == (if readiness == Ready then s.servers[id := s.servers[id].(runner := Some(r))]
                         else s.servers - {id})
        && t.world == World(s.world.created + {r}, s.world.stopped + (if readiness == Ready then {} else {r}),
                            s.world.exited)
  {
    SecondStarts(s, restart, outcome, cancelled);
    OneStart(restart.id, outcome);
  }

  lemma OneStart(id: Id, outcome: Outcome)
    ensures CreatedBy(map[id := outcome]) == if outcome.Created? then {outcome.runner} else {}
    ensures DiscardedBy(map[id := outcome]) ==
      if outcome.Created? && outcome.readiness != Ready then {outcome.runner} else {}
  {
    assert id in map[id := outcome];
  }

  /** While the context lives, a failed restart gives the server up: record and entry go and
  the status becomes Error. Once it is cancelled the record stays and so does the status. A
  restart that did not fail makes the next attempt the first again, if the record the
  supervisor was scheduled in is still the live one. */
  lemma RestartSettlesTheRecord(s: State, restart: Restart, outcome: Outcome, cancelled: bool)
    requires MayRestart(s, restart)
    ensures
      var t, id := ApplySecond(s, restart, outcome, cancelled), restart.id;
      var failed := outcome.FactoryError? || outcome.readiness == NotReady;
      && t.status == (if failed && s.ctxLive && !cancelled then Error else s.status)
      && t.tracker == (if failed then if s.ctxLive && !cancelled then s.tracker - {id} else s.tracker
                       else if s.tracker[id].serial != restart.serial then s.tracker
                       else s.tracker[id := s.tracker[id].(attempts := 0)])
  {}

  // ---------------------------------------------------------------- updates

  /** A server of this configuration, up to the order of its routes. */
  predicate ServedAlready(servers: Servers, wanted: map<Id, Config>, id: Id) {
    id in servers && id in wanted && SameUpToOrder(servers[id].config, wanted[id])
  }

  /** With a live context and no failing start, an update leaves exactly the wanted ids,
  each with its configuration up to the order of the routes. A server that already had it
  is kept, all others are newly created. */
  lemma UpdateIsExact(o: Options, s: State, wanted: map<Id, Config>, outcomes: Outcomes)
    requires WellKeyed(s.servers) && Admits(s.status) && FreshOutcomes(s.world, outcomes)
    requires forall id :: id in wanted ==> Validated(wanted[id])
    requires forall id :: id in Starts(s.servers, wanted) ==> OutcomeOf(outcomes, id).Succeeded()
    ensures var t := ApplyUpdate(o, s, wanted, outcomes, false, false);
      && t.status == Running && t.servers.Keys == wanted.Keys
      && forall id :: id in wanted ==>
           && t.servers[id].id == id && t.servers[id].action == ActionNone
           && SameUpToOrder(t.servers[id].config, wanted[id])
           && (if ServedAlready(s.servers, wanted, id) then t.servers[id] == s.servers[id].(action := ActionNone)
               else t.servers[id].config == wanted[id]
                    && t.servers[id].runner.Some? && t.servers[id].runner.value !in s.world.created)
  {
    var results := Results(s.servers, wanted, outcomes, false);
    assert forall id :: id in results ==> results[id].Succeeded();
    SettledIsExact(s.servers, s.world, wanted, results);
  }

  lemma SettledIsExact(servers: Servers, world: World, wanted: map<Id, Config>, results: Outcomes)
    requires WellKeyed(servers) && FreshOutcomes(world, results)
    requires results.Keys == Starts(servers, wanted)
    requires forall id :: id in results ==> results[id].Succeeded()
    requires forall id :: id in wanted ==> Validated(wanted[id])
    ensures var settled := Settled(servers, wanted, results);
      && settled.Keys == wanted.Keys
      && forall id :: id in wanted ==>
           && settled[id].id == id && settled[id].action == ActionNone
           && SameUpToOrder(settled[id].config, wanted[id])
           && (if ServedAlready(servers, wanted, id) then settled[id] == servers[id].(action := ActionNone)
               else settled[id].config == wanted[id]
                    && settled[id].runner.Some? && settled[id].runner.value !in world.created)
  {
    forall id | id in wanted ensures Unchanged(servers, wanted, id) <==> ServedAlready(servers, wanted, id) {
      if id in servers { EqualMeansSameUpToOrder(servers[id].config, wanted[id]); }
    }
    forall id | id in wanted && !Unchanged(servers, wanted, id) ensures id in results {
      assert id in Starts(servers, wanted);
    }
  }

  /** Applying the same configurations again starts and stops nothing. */
  lemma ReapplyingChangesNothing(o: Options, s: State, wanted: map<Id, Config>, outcomes: Outcomes, again: Outcomes)
    requires WellKeyed(s.servers) && Admits(s.status) && s.ctxLive && FreshOutcomes(s.world, outcomes)
    requires forall id :: id in wanted ==> Validated(wanted[id])
    requires forall id :: id in Starts(s.servers, wanted) ==> OutcomeOf(outcomes, id).Succeeded()
    ensures var t := ApplyUpdate(o, s, wanted, outcomes, false, false);
      && Starts(t.servers, wanted) == {} && Stops(t.servers, wanted) == {}
      && ApplyUpdate(o, t, wanted, again, false, false) == t
  {
    UpdateIsExact(o, s, wanted, outcomes);
    var t := ApplyUpdate(o, s, wanted, outcomes, false, false);
    forall id | id in wanted ensures Equal(t.servers[id].config, wanted[id]) {
      EqualMeansSameUpToOrder(t.servers[id].config, wanted[id]);
    }
    QuietUpdate(t.servers, t.world, wanted, again);
    QuietStep(o, t, wanted, again);
  }

  lemma QuietStep(o: Options, s: State, wanted: map<Id, Config>, outcomes: Outcomes)
    requires s.status == Running && s.ctxLive
    requires var results := Results(s.servers, wanted, outcomes, false);
      results == map[] && Reconciled(s, wanted, results) == s
    ensures ApplyUpdate(o, s, wanted, outcomes, false, false) == s
  {}

  /** Nothing to start and nothing to stop: entries and servers stay as they are. */
  lemma QuietUpdate(servers: Servers, world: World, wanted: map<Id, Config>, outcomes: Outcomes)
    requires servers.Keys == wanted.Keys
    requires forall id :: id in wanted ==> Equal(servers[id].config, wanted[id]) && servers[id].action == ActionNone
    ensures Starts(servers, wanted) == {} && Stops(servers, wanted) == {}
    ensures var results := Results(servers, wanted, outcomes, false);
      && results == map[]
      && Settled(servers, wanted, results) == servers
      && WorldAfter(world, RunnersOf(servers, Stops(servers, wanted)), results) == world
  {
    assert forall id :: id in wanted ==> Unchanged(servers, wanted, id);
    var results := Results(servers, wanted, outcomes, false);
    assert results == map[];
    assert CreatedBy(results) == {} && DiscardedBy(results) == {};
  }

  /** Wanted, and not running with an equal configuration. */
  predicate NeedsStart(servers: Servers, wanted: map<Id, Config>, id: Id) {
    id in wanted && (id in servers ==> !Equal(servers[id].config, wanted[id]))
  }

  /** Running, and not wanted with an equal configuration. */
  predicate NeedsStop(servers: Servers, wanted: map<Id, Config>, id: Id) {
    id in servers && servers[id].runner.Some? && (id in wanted ==> !Equal(servers[id].config, wanted[id]))
  }

  /** The update is cancelled in the pause between its stops and its starts. */
  ghost predicate CutInThePause(o: Options, servers: Servers, wanted: map<Id, Config>, cut: bool) {
    cut && o.restartDelay > 0
    && (exists id :: NeedsStop(servers, wanted, id)) && (exists id :: NeedsStart(servers, wanted, id))
  }

  /** The server is not created, or it is and does not become ready in time. A start that a
  cancellation ends is no failure. */
  predicate StartFails(outcomes: Outcomes, id: Id) {
    id !in outcomes || outcomes[id].FactoryError? || outcomes[id].readiness.NotReady?
  }

  ghost predicate SomeStartFails(servers: Servers, wanted: map<Id, Config>, outcomes: Outcomes) {
    exists id :: NeedsStart(servers, wanted, id) && StartFails(outcomes, id)
  }

  predicate StartWorks(outcomes: Outcomes, id: Id) {
    id in outcomes && outcomes[id].Created? && outcomes[id].readiness.Ready?
  }

  /** An update starts every server that needs it, or none if it is cut in the pause. */
  lemma StartsMade(o: Options, servers: Servers, wanted: map<Id, Config>, outcomes: Outcomes, cut: bool)
    ensures
      var results := UpdateResults(o, servers, wanted, outcomes, cut);
      && (forall id :: id in results <==> !CutInThePause(o, servers, wanted, cut) && NeedsStart(servers, wanted, id))
      && (forall id :: id in results ==>
            && (results[id].Failed() <==> StartFails(outcomes, id))
            && (results[id].Succeeded() <==> StartWorks(outcomes, id))
            && results[id] == if id in outcomes then outcomes[id] else FactoryError)
  {
    PauseIsThePortWait(o, servers, wanted, cut);
    forall id ensures id in Starts(servers, wanted) <==> NeedsStart(servers, wanted, id) {}
  }

  /** An admitted update ends in Error exactly when one of the starts it makes fails. */
  lemma UpdateFailsExactlyWhen(o: Options, s: State, wanted: map<Id, Config>, outcomes: Outcomes,
                               cut: bool, cancelled: bool)
    requires Admits(s.status)
    ensures
      var t := ApplyUpdate(o, s, wanted, outcomes, cut, cancelled);
      && t == s.(status := t.status, servers := t.servers, world := t.world, ctxLive := s.ctxLive && !cancelled)
      && (t.status == Running || t.status == Error)
      && (t.status == Error <==>
            SomeStartFails(s.servers, wanted, outcomes) && !CutInThePause(o, s.servers, wanted, cut))
  {
    StartsMade(o, s.servers, wanted, outcomes, cut);
  }

  /** Every wanted server has an entry, except those whose start did not work. When the pause
  was cut short no server is created, and those to be started wait without a runner. */
  lemma UpdateKeepsExactly(o: Options, s: State, wanted: map<Id, Config>, outcomes: Outcomes,
                           cut: bool, cancelled: bool, id: Id)
    requires Admits(s.status)
    ensures
      var t := ApplyUpdate(o, s, wanted, outcomes, cut, cancelled);
      var idle, starts := CutInThePause(o, s.servers, wanted, cut), NeedsStart(s.servers, wanted, id);
      && (id in t.servers <==> id in wanted && (starts ==> idle || StartWorks(outcomes, id)))
      && (id in t.servers && starts ==>
            t.servers[id] == ServerEntry(id, wanted[id], if idle then None else Some(outcomes[id].runner), ActionNone))
      && (idle ==> t.world.created == s.world.created)
  {
    StartsMade(o, s.servers, wanted, outcomes, cut);
  }

  /** The update creates `r` as a server for `id`. */
  predicate Creates(servers: Servers, wanted: map<Id, Config>, outcomes: Outcomes, id: Id, r: Instance) {
    NeedsStart(servers, wanted, id) && id in outcomes && outcomes[id].Created? && outcomes[id].runner == r
  }

  /** An update creates the servers that it starts, and no others. */
  lemma UpdateCreatesExactly(o: Options, s: State, wanted: map<Id, Config>, outcomes: Outcomes,
                             cut: bool, cancelled: bool, r: Instance)
    requires Admits(s.status)
    ensures
      var w := ApplyUpdate(o, s, wanted, outcomes, cut, cancelled).world;
      && w.exited == s.world.exited
      && (r in w.created <==>
            || r in s.world.created
            || (!CutInThePause(o, s.servers, wanted, cut) && exists id :: Creates(s.servers, wanted, outcomes, id, r)))
  {
    CreationsMade(o, s.servers, wanted, outcomes, cut, r);
  }

  lemma CreationsMade(o: Options, servers: Servers, wanted: map<Id, Config>, outcomes: Outcomes, cut: bool, r: Instance)
    ensures
      var results, idle := UpdateResults(o, servers, wanted, outcomes, cut), CutInThePause(o, servers, wanted, cut);
      && (r in CreatedBy(results) <==> !idle && exists id :: Creates(servers, wanted, outcomes, id, r))
      && (r in DiscardedBy(results) <==>
            !idle && exists id :: Creates(servers, wanted, outcomes, id, r) && !StartWorks(outcomes, id))
  {
    StartsMade(o, servers, wanted, outcomes, cut);
    var results, idle := UpdateResults(o, servers, wanted, outcomes, cut), CutInThePause(o, servers, wanted, cut);
    forall id ensures id in results && results[id].Created? && results[id].runner == r
        <==> !idle && Creates(servers, wanted, outcomes, id, r) {}
    CreatedAndDiscarded(results, r);
  }

  /** It stops those that run and are dropped or replaced, and of the ones it created those
  that do not become ready. */
  lemma UpdateStopsExactly(o: Options, s: State, wanted: map<Id, Config>, outcomes: Outcomes,
                           cut: bool, cancelled: bool, r: Instance)
    requires Admits(s.status)
    ensures
      var w := ApplyUpdate(o, s, wanted, outcomes, cut, cancelled).world;
      r in w.stopped <==>
        || r in s.world.stopped
        || (exists id :: NeedsStop(s.servers, wanted, id) && s.servers[id].runner == Some(r))
        || (!CutInThePause(o, s.servers, wanted, cut)
            && exists id :: Creates(s.servers, wanted, outcomes, id, r) && !StartWorks(outcomes, id))
  {
    CreationsMade(o, s.servers, wanted, outcomes, cut, r);
    forall id ensures id in Stops(s.servers, wanted) <==> NeedsStop(s.servers, wanted, id) {}
  }

  lemma CreatedAndDiscarded(results: Outcomes, r: Instance)
    ensures r in CreatedBy(results) <==>
      exists id :: id in results && results[id].Created? && results[id].runner == r
    ensures r in DiscardedBy(results) <==>
      exists id :: id in results && results[id].Created? && results[id].runner == r && !results[id].Succeeded()
  {}

  lemma PauseIsThePortWait(o: Options, servers: Servers, wanted: map<Id, Config>, cut: bool)
    ensures CutInThePause(o, servers, wanted, cut) <==> WaitIsCut(o, servers, wanted, cut)
  {
    forall id ensures NeedsStop(servers, wanted, id) <==> id in Stops(servers, wanted) {}
    forall id ensures NeedsStart(servers, wanted, id) <==> id in Starts(servers, wanted) {}
  }

  /** A failing start concerns its own id only: whatever happens to the others, an id
  with the same outcome ends with the same entry, and one that fails is removed. */
  lemma FailuresAreIsolated(o: Options, s: State, wanted: map<Id, Config>, a: Outcomes, b: Outcomes, id: Id)
    requires Admits(s.status) && id in wanted
    requires OutcomeOf(a, id) == OutcomeOf(b, id)
    ensures
      var t, u := ApplyUpdate(o, s, wanted, a, false, false), ApplyUpdate(o, s, wanted, b, false, false);
      && (id in t.servers <==> id in u.servers)
      && (id in t.servers ==> t.servers[id] == u.servers[id])
      && (id in t.servers <==> Unchanged(s.servers, wanted, id) || OutcomeOf(a, id).Succeeded())
  {
    var results, results' := Results(s.servers, wanted, a, false), Results(s.servers, wanted, b, false);
    assert id in results <==> !Unchanged(s.servers, wanted, id);
    assert id in results' <==> id in results;
  }

  // ---------------------------------------------------------------- the status

  /** Over every run, an update that arrives before shutdown is never dropped, whatever went
  wrong before: afterwards the entries are among the wanted ones, servers whose
  configuration is unchanged still run, and the next update will be let in as well. */
  lemma NoUpdateIsDropped(o: Options, now: Time, events: seq<Event>, e: Event)
    requires o.Valid() && IsRun(o, Initial(now), events)
    requires e.Update? && Enabled(Reach(o, Initial(now), events), e)
    ensures
      var s := Reach(o, Initial(now), events);
      var t := Apply(o, s, e);
      && t.servers.Keys <= e.wanted.Keys && Admits(t.status)
      && forall id :: Unchanged(s.servers, e.wanted, id) ==> Carries(t.servers, id, s.servers[id].runner)
  {
    ReachableInv(o, now, events);
  }

  /** While the context lives, the status after an update says whether all wanted servers
  have an entry: Running if they do, Error if one is missing. */
  lemma ErrorMeansAServerIsMissing(o: Options, now: Time, events: seq<Event>, e: Event)
    requires o.Valid() && IsRun(o, Initial(now), events)
    requires e.Update? && Enabled(Reach(o, Initial(now), events), e)
    requires Apply(o, Reach(o, Initial(now), events), e).ctxLive
    ensures
      var t := Apply(o, Reach(o, Initial(now), events), e);
      t.status == if e.wanted.Keys == t.servers.Keys then Running else Error
  {
    ReachableInv(o, now, events);
    var s := Reach(o, Initial(now), events);
    var results := Results(s.servers, e.wanted, e.outcomes, false);
    assert forall id :: id in results ==> results[id].Failed() || results[id].Succeeded();
    assert forall id :: id in e.wanted && !Unchanged(s.servers, e.wanted, id) ==> id in results;
    var t := Apply(o, s, e);
    if AnyFailed(results) {
      var id :| id in results && results[id].Failed();
      assert id in e.wanted && id !in t.servers;
    }
  }

  /** In the same way a step of a supervisor turns Running into Error exactly when it gives a
  server up. */
  lemma ErrorMeansAServerIsGivenUp(o: Options, s: State, e: Event)
    requires (e.First? || e.Second?) && Enabled(s, e)
    requires s.status == Running && Apply(o, s, e).ctxLive
    ensures
      var t := Apply(o, s, e);
      && t.servers.Keys <= s.servers.Keys
      && t.status == if t.servers.Keys == s.servers.Keys then Running else Error
  {}
}
