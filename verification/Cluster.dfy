/** The HTTP cluster as a transition system. Every step is one critical section of the
cluster's mutex, or something the environment does while the mutex is free: a server
exits, the context is cancelled, time passes. Interleavings are arbitrary sequences of
steps, so whatever holds after every sequence holds under every schedule.
*/
module Cluster {
  import opened Wrappers
  import opened Fsm
  import opened HttpConfig
  import opened CrashTracker
  import opened Entries

  datatype Options = Options(
    table: Table,
    maxRestarts: nat,
    restartWindow: Time,
    backoffInitial: nat,
    backoffMax: nat,
    restartDelay: nat)
  {
    /** What the option functions check, and the edges of the status table. */
    ghost predicate Valid() {
      ShownEdges(table) && 0 < restartWindow && 0 < backoffInitial <= backoffMax
    }

    /** How long the restart after so many crashes in a row waits: the capped doubling, one
    unit longer where that lands just below the cap. */
    ghost function Delay(attempt: nat): nat {
      IdealBackoff(backoffInitial, backoffMax, attempt)
      + if OneShort(backoffInitial, backoffMax, attempt) then 1 else 0
    }
  }

  /** What starting one server leads to. `Aborted`: the wait for readiness ended because
  the cluster's context was cancelled. */
  datatype Readiness = Ready | NotReady | Aborted
  datatype Outcome = FactoryError | Created(runner: Instance, readiness: Readiness)
  {
    predicate Succeeded() { Created? && readiness == Ready }
    predicate Failed() { FactoryError? || readiness == NotReady }
    predicate WasAborted() { Created? && readiness == Aborted }
  }

  type Outcomes = map<Id, Outcome>

  /** Every server instance ever created, and what became of it. */
  datatype World = World(created: set<Instance>, stopped: set<Instance>, exited: set<Instance>)
  {
    predicate Live(runner: Instance) {
      runner in created && runner !in stopped && runner !in exited
    }
  }

  /** Crash record of one server. `serial` is the identity of the heap object, `crashes`
  everything recorded in it. */
  datatype Record = Record(serial: nat, failures: seq<Time>, attempts: nat, gen: nat, crashes: seq<Time>)

  /** A crash whose supervisor has not taken the mutex yet. */
  datatype Report = Report(id: Id, runner: Instance)

  /** A supervisor waiting out its backoff. */
  datatype Restart = Restart(id: Id, serial: nat, gen: nat, delay: nat)

  datatype State = State(
    status: Status,
    servers: Servers,
    tracker: map<Id, Record>,
    world: World,
    reports: set<Report>,
    restarts: set<Restart>,
    newest: map<Id, Restart>,   // the restart scheduled by the latest crash of each id
    nextSerial: nat,
    ctxLive: bool,
    down: bool,
    now: Time)

  // ---------------------------------------------------------------- config update

  function Starts(before: Servers, wanted: map<Id, Config>): set<Id> {
    set id | id in wanted && !Unchanged(before, wanted, id)
  }

  function Stops(before: Servers, wanted: map<Id, Config>): set<Id> {
    set id | id in before && (Dropped(before, wanted, id) || Replaced(before, wanted, id))
  }

  function RunnersOf(servers: Servers, ids: set<Id>): set<Instance> {
    set id | id in ids && id in servers && servers[id].runner.Some? :: servers[id].runner.value
  }

  /** The factory returns a new instance on every call. */
  ghost predicate FreshOutcomes(world: World, outcomes: Outcomes) {
    forall id :: id in outcomes ==> FreshFor(world, id, outcomes[id])
  }

  predicate FreshFor(world: World, id: Id, outcome: Outcome) {
    outcome.Created? ==> outcome.runner.id == id && outcome.runner !in world.created
  }

  function OutcomeOf(outcomes: Outcomes, id: Id): Outcome {
    if id in outcomes then outcomes[id] else FactoryError
  }

  /** The outcomes that matter: none if the wait for released ports was cut short. */
  function Results(before: Servers, wanted: map<Id, Config>, outcomes: Outcomes, cut: bool): Outcomes {
    map id | id in Starts(before, wanted) && !cut :: OutcomeOf(outcomes, id)
  }

  /** The port wait happens only between stops and starts. */
  predicate WaitIsCut(o: Options, before: Servers, wanted: map<Id, Config>, cut: bool) {
    cut && Stops(before, wanted) != {} && Starts(before, wanted) != {} && o.restartDelay > 0
  }

  predicate AnyFailed(results: Outcomes) {
    exists id :: id in results && results[id].Failed()
  }

  function CreatedBy(results: Outcomes): set<Instance> {
    set id | id in results && results[id].Created? :: results[id].runner
  }

  function DiscardedBy(results: Outcomes): set<Instance> {
    set id | id in results && results[id].Created? && !results[id].Succeeded() :: results[id].runner
  }

  /** Servers are stopped, servers are created, those that did not become ready are stopped. */
  function WorldAfter(world: World, stopped: set<Instance>, results: Outcomes): World {
    World(world.created + CreatedBy(results), world.stopped + stopped + DiscardedBy(results), world.exited)
  }

  /** Where an update leads, stated per server and without the intermediate steps. */
  function Settled(before: Servers, wanted: map<Id, Config>, results: Outcomes): Servers {
    map id | id in wanted && (Unchanged(before, wanted, id) || id !in results || results[id].Succeeded()) ::
      if Unchanged(before, wanted, id) then before[id].(action := ActionNone)
      else ServerEntry(id, wanted[id],
                       if id in results && results[id].Created? then Some(results[id].runner) else None,
                       ActionNone)
  }

  predicate Admits(status: Status) { status == Running || status == Error }

  /** The results of the starts that an update makes. */
  function UpdateResults(o: Options, servers: Servers, wanted: map<Id, Config>, outcomes: Outcomes, cut: bool)
    : Outcomes
  {
    Results(servers, wanted, outcomes, WaitIsCut(o, servers, wanted, cut))
  }

  function Reconciled(s: State, wanted: map<Id, Config>, results: Outcomes): State {
    s.(servers := Settled(s.servers, wanted, results),
       world := WorldAfter(s.world, RunnersOf(s.servers, Stops(s.servers, wanted)), results))
  }

  function ApplyUpdate(o: Options, s: State, wanted: map<Id, Config>, outcomes: Outcomes,
                       cut: bool, cancelled: bool): State
  {
    var s := s.(ctxLive := s.ctxLive && !cancelled);
    if !Admits(s.status) then s
    else
      var results := UpdateResults(o, s.servers, wanted, outcomes, cut);
      Reconciled(s, wanted, results).(status := if AnyFailed(results) then Error else Running)
  }

  // ---------------------------------------------------------------- crash supervision

  /** The record of `id`, or the one that is created for it. */
  function RecordIn(tracker: map<Id, Record>, nextSerial: nat, id: Id): Record {
    if id in tracker then tracker[id] else Record(nextSerial, [], 0, 0, [])
  }

  function RecordFor(s: State, id: Id): Record { RecordIn(s.tracker, s.nextSerial, id) }

  /** recordFailureLocked on the record. */
  function WithFailure(r: Record, now: Time, window: Time): Record {
    r.(failures := After(r.failures, now - window) + [now], crashes := r.crashes + [now])
  }

  /** The live record of `id`, created if there is none. */
  function Opened(s: State, id: Id): State {
    s.(tracker := s.tracker[id := RecordFor(s, id)],
       nextSerial := if id in s.tracker then s.nextSerial else s.nextSerial + 1)
  }

  function Crashed(o: Options, s: State, id: Id): State
    requires id in s.tracker
  {
    s.(tracker := s.tracker[id := WithFailure(s.tracker[id], s.now, o.restartWindow)])
  }

  /** One more crash in the live record of `id`. */
  function Recorded(o: Options, s: State, id: Id): State { Crashed(o, Opened(s, id), id) }

  /** The cluster gives up on `id`. */
  function Escalated(s: State, id: Id): State {
    s.(servers := s.servers - {id}, tracker := s.tracker - {id}, status := Error)
  }

  /** One more attempt in a new generation. */
  function Counted(s: State, id: Id): State
    requires id in s.tracker
  {
    var r := s.tracker[id];
    s.(tracker := s.tracker[id := r.(attempts := r.attempts + 1, gen := r.gen + 1)])
  }

  /** The restart that the latest attempt waits for. */
  function NextRestart(o: Options, s: State, id: Id): Restart
    requires id in s.tracker
  {
    var r := s.tracker[id];
    Restart(id, r.serial, r.gen, Backoff(o.backoffInitial, o.backoffMax, r.attempts))
  }

  /** The runtime of `id` is cleared and a supervisor starts waiting. */
  function LeftWaiting(s: State, restart: Restart): State
    requires restart.id in s.servers
  {
    s.(servers := WithRuntime(s.servers, restart.id, None),
       restarts := s.restarts + {restart},
       newest := s.newest[restart.id := restart])
  }

  function Scheduled(o: Options, s: State, id: Id): State
    requires id in s.tracker && id in s.servers
  {
    var s := Counted(s, id);
    LeftWaiting(s, NextRestart(o, s, id))
  }

  /** First critical section of superviseRestart. */
  function ApplyFirst(o: Options, s: State, report: Report): State {
    var s := s.(reports := s.reports - {report});
    if Carries(s.servers, report.id, Some(report.runner)) then Acted(o, s, report.id) else s
  }

  /** What a crash of the current server of `id` leads to. */
  function Acted(o: Options, s: State, id: Id): State
    requires id in s.servers
  {
    var s := Recorded(o, s, id);
    if |s.tracker[id].failures| > o.maxRestarts then Escalated(s, id) else Scheduled(o, s, id)
  }

  /** The three guards a supervisor re-checks after its backoff. */
  predicate MayRestart(s: State, restart: Restart) {
    && Carries(s.servers, restart.id, None)
    && restart.id in s.tracker
    && s.tracker[restart.id].gen == restart.gen
  }

  /** startServers for one id. */
  function StartedOne(s: State, id: Id, outcome: Outcome): State {
    s.(servers := if outcome.Succeeded() && id in s.servers then WithRuntime(s.servers, id, Some(outcome.runner))
                  else s.servers - {id},
       world := WorldAfter(s.world, {}, map[id := outcome]))
  }

  /** The backoff ramp starts over in the record with the given identity, if it is live. */
  function RampReset(s: State, id: Id, serial: nat): State {
    if id in s.tracker && s.tracker[id].serial == serial
    then s.(tracker := s.tracker[id := s.tracker[id].(attempts := 0)])
    else s
  }

  /** Second critical section of superviseRestart. */
  function ApplySecond(s: State, restart: Restart, outcome: Outcome, cancelled: bool): State {
    var s := s.(restarts := s.restarts - {restart}, ctxLive := s.ctxLive && !cancelled);
    if MayRestart(s, restart) then Retried(s, restart.id, restart.serial, outcome) else s
  }

  /** The start after the guards: it resets the ramp, or the cluster gives up on `id`. */
  function Retried(s: State, id: Id, serial: nat, outcome: Outcome): State {
    var s := StartedOne(s, id, outcome);
    if !outcome.Failed() then RampReset(s, id, serial)
    else if s.ctxLive then Escalated(s, id)
    else s
  }

  // ---------------------------------------------------------------- shutdown

  function Emptied(s: State): State {
    s.(servers := map[], world := s.world.(stopped := s.world.stopped + RunnersOf(s.servers, s.servers.Keys)))
  }

  function ApplyShutdown(o: Options, s: State): State {
    Emptied(s).(status := Transition(o.table, Transition(o.table, s.status, Stopping), Stopped), down := true)
  }

  // ---------------------------------------------------------------- steps and runs

  datatype Event =
    | Update(wanted: map<Id, Config>, outcomes: Outcomes, cut: bool, cancelled: bool)
    | First(report: Report)
    | Second(restart: Restart, outcome: Outcome, cancelled: bool)
    | GiveUp(restart: Restart)
    | Exit(runner: Instance, crashed: bool)
    | Cancel
    | Tick(to: Time)
    | Shutdown

  ghost predicate Enabled(s: State, e: Event) {
    match e
    case Update(wanted, outcomes, cut, cancelled) =>
      && !s.down
      && !Collides(s.servers, wanted)
      && FreshOutcomes(s.world, outcomes)
      && (s.ctxLive && !cancelled ==> !cut && forall id :: id in outcomes ==> !outcomes[id].WasAborted())
    case First(report) => report in s.reports
    case Second(restart, outcome, cancelled) =>
      && restart in s.restarts
      && FreshFor(s.world, restart.id, outcome)
      && (s.ctxLive && !cancelled ==> !outcome.WasAborted())
    case GiveUp(restart) => restart in s.restarts && !s.ctxLive
    case Exit(runner, crashed) =>
      && runner in s.world.created && runner !in s.world.exited
      && (crashed ==> s.ctxLive)
    case Cancel => true
    case Tick(to) => s.now <= to
    case Shutdown => !s.down
  }

  function Apply(o: Options, s: State, e: Event): State {
    match e
    case Update(wanted, outcomes, cut, cancelled) => ApplyUpdate(o, s, wanted, outcomes, cut, cancelled)
    case First(report) => ApplyFirst(o, s, report)
    case Second(restart, outcome, cancelled) => ApplySecond(s, restart, outcome, cancelled)
    case GiveUp(restart) => s.(restarts := s.restarts - {restart})
    case Exit(runner, crashed) =>
      s.(world := s.world.(exited := s.world.exited + {runner}),
         reports := if crashed then s.reports + {Report(runner.id, runner)} else s.reports)
    case Cancel => s.(ctxLive := false)
    case Tick(to) => s.(now := to)
    case Shutdown => ApplyShutdown(o, s)
  }

  /** The cluster right after Run reached Running. */
  function Initial(now: Time): State {
    State(Running, map[], map[], World({}, {}, {}), {}, {}, map[], 0, true, false, now)
  }

  ghost predicate IsRun(o: Options, s: State, events: seq<Event>)
    decreases |events|
  {
    events == [] || (Enabled(s, events[0]) && IsRun(o, Apply(o, s, events[0]), events[1..]))
  }

  function Reach(o: Options, s: State, events: seq<Event>): State
    decreases |events|
  {
    if events == [] then s else Reach(o, Apply(o, s, events[0]), events[1..])
  }
}
