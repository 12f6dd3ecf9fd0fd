/** What holds after every sequence of cluster steps. */
module ClusterSafety {
  import opened Wrappers
  import opened Fsm
  import opened HttpConfig
  import opened CrashTracker
  import opened Entries
  import opened Cluster

  // ---------------------------------------------------------------- the invariant

  /** Entries agree with their keys, carry no pending action, and refer to servers that
  were created for that very id and never told to stop. */
  ghost predicate ServersInv(servers: Servers, world: World) {
    && WellKeyed(servers)
    && world.stopped + world.exited <= world.created
    && forall id :: id in servers ==> servers[id].action == ActionNone && Employed(world, id, servers[id].runner)
  }

  ghost predicate Employed(world: World, id: Id, runner: Option<Instance>) {
    runner.Some? ==>
      && runner.value in world.created && runner.value.id == id
      && runner.value !in world.stopped
  }

  /** No server is leaked: a live server is the runner of its id's entry. */
  ghost predicate NoLeak(servers: Servers, world: World) {
    forall r :: world.Live(r) ==> Carries(servers, r.id, Some(r))
  }

  ghost predicate ReportsInv(s: State) {
    forall report :: report in s.reports ==>
      report.runner in s.world.exited && report.runner.id == report.id
  }

  /** The latest crash recorded for an id belongs to the live record, if there is one. */
  ghost predicate NewestInv(newest: map<Id, Restart>, tracker: map<Id, Record>, nextSerial: nat) {
    && (forall id :: id in newest ==> newest[id].id == id && newest[id].serial < nextSerial)
    && (forall id :: id in tracker ==>
          && tracker[id].serial < nextSerial
          && id in newest
          && newest[id].serial == tracker[id].serial
          && newest[id].gen == tracker[id].gen)
  }

  /** `b` is the supervisor of a crash no later than the one `latest` belongs to. */
  predicate NotAhead(b: Restart, latest: Restart) {
    b == latest || b.serial < latest.serial || (b.serial == latest.serial && b.gen < latest.gen)
  }

  /** Within one record, generations identify supervisors, and none is ahead of the newest. */
  ghost predicate GenerationsInv(restarts: set<Restart>, newest: map<Id, Restart>) {
    && (forall b :: b in restarts ==> b.id in newest && NotAhead(b, newest[b.id]))
    && (forall b, c :: b in restarts && c in restarts && SameGeneration(b, c) ==> b == c)
  }

  predicate SameGeneration(b: Restart, c: Restart) {
    b.id == c.id && b.serial == c.serial && b.gen == c.gen
  }

  /** No crashed server is forgotten: while the context lives, an entry without a runner
  has a supervisor that will pass every guard. */
  ghost predicate NotForgotten(s: State) {
    s.ctxLive && !s.down ==>
      forall id :: id in s.servers && s.servers[id].runner == None ==>
        id in s.newest && s.newest[id] in s.restarts && MayRestart(s, s.newest[id])
  }

  /** Every live crash record is the sliding window over its history and has not reached
  the escalation threshold. */
  ghost predicate TrackerInv(o: Options, s: State) {
    forall id :: id in s.tracker ==> HistoryInv(o, s.tracker[id].failures, s.tracker[id].crashes, s.now)
  }

  ghost predicate HistoryInv(o: Options, failures: seq<Time>, crashes: seq<Time>, now: Time) {
    && IsWindow(failures, crashes, o.restartWindow)
    && |failures| <= o.maxRestarts
    && (crashes != [] ==> crashes[|crashes| - 1] <= now)
  }

  /** While the mutex is free the cluster is never Reloading. */
  ghost predicate StatusInv(s: State) {
    if s.down then s.servers == map[] && (s.status == Stopped || s.status == Error)
    else s.status == Running || s.status == Error
  }

  ghost predicate Inv(o: Options, s: State) {
    && ServersInv(s.servers, s.world) && NoLeak(s.servers, s.world) && ReportsInv(s)
    && NewestInv(s.newest, s.tracker, s.nextSerial) && GenerationsInv(s.restarts, s.newest) && NotForgotten(s)
    && TrackerInv(o, s) && StatusInv(s)
  }

  // ---------------------------------------------------------------- preservation, step by step

  lemma SettledKeepsServers(servers: Servers, world: World, wanted: map<Id, Config>, results: Outcomes)
    requires ServersInv(servers, world) && FreshOutcomes(world, results)
    requires results.Keys <= Starts(servers, wanted)
    ensures var world' := WorldAfter(world, RunnersOf(servers, Stops(servers, wanted)), results);
      ServersInv(Settled(servers, wanted, results), world')
  {
    var settled := Settled(servers, wanted, results);
    var world' := WorldAfter(world, RunnersOf(servers, Stops(servers, wanted)), results);
    forall id | id in settled ensures Employed(world', id, settled[id].runner) {
      if id in results { assert FreshFor(world, id, results[id]); }
    }
    forall i, j | i in settled && j in settled && settled[i].runner.Some? && settled[i].runner == settled[j].runner
      ensures i == j
    {
      assert Employed(world', i, settled[i].runner) && Employed(world', j, settled[j].runner);
    }
  }

  lemma SettledLeaksNothing(servers: Servers, world: World, wanted: map<Id, Config>, results: Outcomes)
    requires ServersInv(servers, world) && NoLeak(servers, world) && FreshOutcomes(world, results)
    requires results.Keys <= Starts(servers, wanted)
    ensures var world' := WorldAfter(world, RunnersOf(servers, Stops(servers, wanted)), results);
      NoLeak(Settled(servers, wanted, results), world')
  {
    var settled := Settled(servers, wanted, results);
    var world' := WorldAfter(world, RunnersOf(servers, Stops(servers, wanted)), results);
    forall r | world'.Live(r) ensures Carries(settled, r.id, Some(r)) {
      if r in CreatedBy(results) {
        assert r !in DiscardedBy(results);
      } else {
        assert Carries(servers, r.id, Some(r));
        assert r !in RunnersOf(servers, Stops(servers, wanted));
        assert r.id !in Stops(servers, wanted);
      }
    }
  }

  lemma UpdateKeepsInv(o: Options, s: State, wanted: map<Id, Config>, outcomes: Outcomes, cut: bool, cancelled: bool)
    requires o.Valid() && Inv(o, s) && Enabled(s, Update(wanted, outcomes, cut, cancelled))
    ensures Inv(o, ApplyUpdate(o, s, wanted, outcomes, cut, cancelled))
  {
    if Admits(s.status) {
      var results := Results(s.servers, wanted, outcomes, WaitIsCut(o, s.servers, wanted, cut));
      SettledKeepsServers(s.servers, s.world, wanted, results);
      SettledLeaksNothing(s.servers, s.world, wanted, results);
      SettledForgetsNothing(o, s, wanted, outcomes, cut, cancelled);
    }
  }

  lemma SettledForgetsNothing(o: Options, s: State, wanted: map<Id, Config>, outcomes: Outcomes,
                              cut: bool, cancelled: bool)
    requires Inv(o, s) && Enabled(s, Update(wanted, outcomes, cut, cancelled)) && Admits(s.status)
    ensures NotForgotten(ApplyUpdate(o, s, wanted, outcomes, cut, cancelled))
  {
    var t := ApplyUpdate(o, s, wanted, outcomes, cut, cancelled);
    if t.ctxLive {
      forall id | id in t.servers && t.servers[id].runner == None
        ensures id in t.newest && t.newest[id] in t.restarts && MayRestart(t, t.newest[id])
      {
        assert Unchanged(s.servers, wanted, id);
        assert MayRestart(s, s.newest[id]);
      }
    }
  }

  lemma FirstKeepsInv(o: Options, s: State, report: Report)
    requires o.Valid() && Inv(o, s) && Enabled(s, First(report))
    ensures Inv(o, ApplyFirst(o, s, report))
  {
    var id := report.id;
    if id in s.servers && s.servers[id].runner == Some(report.runner) {
      FirstKeepsServers(o, s, report);
      FirstKeepsSupervision(o, s, report);
      FirstKeepsHistory(o, s, report);
      FirstForgetsNothing(o, s, report);
    }
  }

  lemma FirstKeepsServers(o: Options, s: State, report: Report)
    requires ServersInv(s.servers, s.world) && NoLeak(s.servers, s.world)
    requires report.runner in s.world.exited
    requires Carries(s.servers, report.id, Some(report.runner))
    ensures var t := ApplyFirst(o, s, report); ServersInv(t.servers, t.world) && NoLeak(t.servers, t.world)
  {
    FirstClears(o, s, report);
    var t := ApplyFirst(o, s, report);
    forall r | t.world.Live(r) ensures Carries(t.servers, r.id, Some(r)) {
      assert Carries(s.servers, r.id, Some(r));
      assert r.id != report.id;
    }
  }

  /** The crashed entry loses its runtime or goes. */
  lemma FirstClears(o: Options, s: State, report: Report)
    requires Carries(s.servers, report.id, Some(report.runner))
    ensures var t := ApplyFirst(o, s, report);
      && t.world == s.world
      && (t.servers == WithRuntime(s.servers, report.id, None) || t.servers == s.servers - {report.id})
  {}

  lemma FirstKeepsSupervision(o: Options, s: State, report: Report)
    requires NewestInv(s.newest, s.tracker, s.nextSerial) && GenerationsInv(s.restarts, s.newest)
    requires Carries(s.servers, report.id, Some(report.runner))
    ensures var t := ApplyFirst(o, s, report);
      NewestInv(t.newest, t.tracker, t.nextSerial) && GenerationsInv(t.restarts, t.newest)
  {
    var t := ApplyFirst(o, s, report);
    if report.id in t.servers {
      ScheduleRestart(s.restarts, s.newest, t.newest[report.id]);
    }
  }

  lemma FirstKeepsHistory(o: Options, s: State, report: Report)
    requires 0 < o.restartWindow && TrackerInv(o, s)
    requires Carries(s.servers, report.id, Some(report.runner))
    ensures TrackerInv(o, ApplyFirst(o, s, report))
  {
    var t := ApplyFirst(o, s, report);
    var r := WithFailure(RecordFor(s, report.id), s.now, o.restartWindow);
    FailureKeepsHistory(o, RecordFor(s, report.id), s.now);
    forall id | id in t.tracker ensures HistoryInv(o, t.tracker[id].failures, t.tracker[id].crashes, t.now) {
      if id == report.id {
        assert t.tracker[id].crashes == r.crashes && t.tracker[id].failures == r.failures;
      } else {
        assert t.tracker[id] == s.tracker[id];
      }
    }
  }

  lemma {:induction false} FailureKeepsHistory(o: Options, r: Record, now: Time)
    requires 0 < o.restartWindow && HistoryInv(o, r.failures, r.crashes, now)
    ensures var r' := WithFailure(r, now, o.restartWindow);
      |r'.failures| <= o.maxRestarts ==> HistoryInv(o, r'.failures, r'.crashes, now)
  {
    var failures, crashes := After(r.failures, now - o.restartWindow) + [now], r.crashes + [now];
    RecordingKeepsWindow(r.failures, r.crashes, now, o.restartWindow);
    WindowIsHistory(o, failures, crashes, now);
  }

  lemma {:induction false} WindowIsHistory(o: Options, failures: seq<Time>, crashes: seq<Time>, now: Time)
    requires IsWindow(failures, crashes, o.restartWindow) && crashes != [] && crashes[|crashes| - 1] == now
    ensures |failures| <= o.maxRestarts ==> HistoryInv(o, failures, crashes, now)
  {}

  lemma ScheduleRestart(restarts: set<Restart>, newest: map<Id, Restart>, b: Restart)
    requires GenerationsInv(restarts, newest)
    requires b.id in newest ==> newest[b.id] != b && NotAhead(newest[b.id], b)
    ensures GenerationsInv(restarts + {b}, newest[b.id := b])
  {
    forall c | c in restarts && c.id == b.id ensures NotAhead(c, b) && !SameGeneration(b, c) {
      assert NotAhead(c, newest[b.id]);
    }
  }

  lemma FirstForgetsNothing(o: Options, s: State, report: Report)
    requires o.Valid() && Inv(o, s) && Enabled(s, First(report))
    requires Carries(s.servers, report.id, Some(report.runner))
    ensures NotForgotten(ApplyFirst(o, s, report))
  {
    var t := ApplyFirst(o, s, report);
    if s.ctxLive && !s.down {
      forall k | k in t.servers && t.servers[k].runner == None
        ensures k in t.newest && t.newest[k] in t.restarts && MayRestart(t, t.newest[k])
      {
        if k != report.id { assert MayRestart(s, s.newest[k]); }
      }
    }
  }

  /** One server is started under an id whose entry has no runner. */
  lemma StartKeepsServers(servers: Servers, world: World, id: Id, outcome: Outcome)
    requires ServersInv(servers, world) && NoLeak(servers, world)
    requires FreshFor(world, id, outcome) && Carries(servers, id, None)
    ensures var world' := WorldAfter(world, {}, map[id := outcome]);
      var servers' := if outcome.Succeeded() then WithRuntime(servers, id, Some(outcome.runner)) else servers - {id};
      ServersInv(servers', world') && NoLeak(servers', world')
  {
    var results := map[id := outcome];
    assert id in results && results[id] == outcome;
    var world' := WorldAfter(world, {}, results);
    forall r | world'.Live(r)
      ensures (r !in world.created && outcome.Succeeded()) || (r in world.created && Carries(servers, r.id, Some(r)))
    {
      assert r !in DiscardedBy(results);
    }
  }

  lemma SecondKeepsInv(o: Options, s: State, restart: Restart, outcome: Outcome, cancelled: bool)
    requires o.Valid() && Inv(o, s) && Enabled(s, Second(restart, outcome, cancelled))
    ensures Inv(o, ApplySecond(s, restart, outcome, cancelled))
  {
    SecondForgetsNothing(s, restart, outcome, cancelled);
    SecondKeepsSupervision(o, s, restart, outcome, cancelled);
    SecondKeepsServers(s, restart, outcome, cancelled);
  }

  lemma SecondKeepsServers(s: State, restart: Restart, outcome: Outcome, cancelled: bool)
    requires ServersInv(s.servers, s.world) && NoLeak(s.servers, s.world) && ReportsInv(s)
    requires FreshFor(s.world, restart.id, outcome)
    ensures var t := ApplySecond(s, restart, outcome, cancelled);
      ServersInv(t.servers, t.world) && NoLeak(t.servers, t.world) && ReportsInv(t)
  {
    SecondStarts(s, restart, outcome, cancelled);
    if MayRestart(s, restart) {
      StartKeepsServers(s.servers, s.world, restart.id, outcome);
    }
  }

  /** What a restart does to servers and world, and that it makes no report. */
  lemma SecondStarts(s: State, restart: Restart, outcome: Outcome, cancelled: bool)
    ensures var t, id := ApplySecond(s, restart, outcome, cancelled), restart.id;
      && t.reports == s.reports
      && (!MayRestart(s, restart) ==> t.servers == s.servers && t.world == s.world)
      && (MayRestart(s, restart) ==>
            && t.world == WorldAfter(s.world, {}, map[id := outcome])
            && t.servers == if outcome.Succeeded() then WithRuntime(s.servers, id, Some(outcome.runner))
                            else s.servers - {id})
  {}

  /** Supervisors only leave, records are deleted or have their ramp reset. */
  lemma SecondRecords(s: State, restart: Restart, outcome: Outcome, cancelled: bool)
    ensures var t := ApplySecond(s, restart, outcome, cancelled);
      && t.newest == s.newest && t.restarts <= s.restarts && t.now == s.now && t.nextSerial == s.nextSerial
      && forall id :: id in t.tracker ==>
           id in s.tracker && t.tracker[id] == s.tracker[id].(attempts := t.tracker[id].attempts)
  {}

  lemma SecondKeepsSupervision(o: Options, s: State, restart: Restart, outcome: Outcome, cancelled: bool)
    requires NewestInv(s.newest, s.tracker, s.nextSerial) && GenerationsInv(s.restarts, s.newest) && TrackerInv(o, s)
    ensures var t := ApplySecond(s, restart, outcome, cancelled);
      NewestInv(t.newest, t.tracker, t.nextSerial) && GenerationsInv(t.restarts, t.newest) && TrackerInv(o, t)
  {
    SecondRecords(s, restart, outcome, cancelled);
  }

  lemma SecondForgetsNothing(s: State, restart: Restart, outcome: Outcome, cancelled: bool)
    requires NewestInv(s.newest, s.tracker, s.nextSerial) && NotForgotten(s)
    ensures NotForgotten(ApplySecond(s, restart, outcome, cancelled))
  {
    var t := ApplySecond(s, restart, outcome, cancelled);
    if t.ctxLive && !t.down {
      forall k | k in t.servers && t.servers[k].runner == None
        ensures k in t.newest && t.newest[k] in t.restarts && MayRestart(t, t.newest[k])
      {
        assert MayRestart(s, s.newest[k]);
        assert k != restart.id || !MayRestart(s, restart);
      }
    }
  }

  lemma ShutdownKeepsInv(o: Options, s: State)
    requires o.Valid() && Inv(o, s) && !s.down
    ensures Inv(o, ApplyShutdown(o, s))
  {
    var t := ApplyShutdown(o, s);
    forall r | s.world.Live(r) ensures !t.world.Live(r) {
      assert Carries(s.servers, r.id, Some(r));
    }
  }

  lemma StepKeepsInv(o: Options, s: State, e: Event)
    requires o.Valid() && Inv(o, s) && Enabled(s, e)
    ensures Inv(o, Apply(o, s, e))
  {
    match e
    case Update(wanted, outcomes, cut, cancelled) => UpdateKeepsInv(o, s, wanted, outcomes, cut, cancelled);
    case First(report) => FirstKeepsInv(o, s, report);
    case Second(restart, outcome, cancelled) => SecondKeepsInv(o, s, restart, outcome, cancelled);
    case Shutdown => ShutdownKeepsInv(o, s);
    case _ =>
  }

  /** The invariant holds after every run of the cluster. */
  lemma {:induction false} RunKeepsInv(o: Options, s: State, events: seq<Event>)
    requires o.Valid() && Inv(o, s) && IsRun(o, s, events)
    ensures Inv(o, Reach(o, s, events))
    decreases |events|
  {
    if events != [] {
      StepKeepsInv(o, s, events[0]);
      RunKeepsInv(o, Apply(o, s, events[0]), events[1..]);
    }
  }
}
