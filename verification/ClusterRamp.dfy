/** The backoff over whole runs: how long a crashed server waits is determined by how many
crashes in a row it has had without a successful restart in between. */
module ClusterRamp {
  import opened Wrappers
  import opened CrashTracker
  import opened Entries
  import opened Cluster
  import opened ClusterSafety
  import opened ClusterResults

  // ---------------------------------------------------------------- what is counted

  /** The step is a crash of the server of `id` that leads to a restart. */
  predicate CountsCrash(o: Options, s: State, e: Event, id: Id) {
    && e.First? && e.report.id == id && Carries(s.servers, id, Some(e.report.runner))
    && |RecentCrashes(o, s, id)| <= o.maxRestarts
  }

  /** The step is a restart that did not fail, by a supervisor of the live record. */
  predicate EndsStreak(s: State, e: Event, id: Id) {
    && e.Second? && e.restart.id == id && Carries(s.servers, id, None)
    && id in s.tracker && s.tracker[id].gen == e.restart.gen && s.tracker[id].serial == e.restart.serial
    && e.outcome.Created? && e.outcome.readiness != NotReady
  }

  /** How many crashes in a row `id` has had after `events`, having had `n` before: counted
  since its record was created or since the last successful restart. */
  function Streak(o: Options, s: State, events: seq<Event>, id: Id, n: nat): nat
    decreases |events|
  {
    if events == [] then n
    else Streak(o, Apply(o, s, events[0]), events[1..], id, StreakStep(o, s, events[0], id, n))
  }

  function StreakStep(o: Options, s: State, e: Event, id: Id, n: nat): nat {
    if CountsCrash(o, s, e, id) then 1 + (if id in s.tracker then n else 0)
    else if EndsStreak(s, e, id) then 0
    else n
  }

  // ---------------------------------------------------------------- the ramp

  /** The attempts counted for `id`. */
  function AttemptsOf(s: State, id: Id): nat {
    if id in s.tracker then s.tracker[id].attempts else 0
  }

  lemma StepCounts(o: Options, s: State, e: Event, id: Id)
    requires 0 < o.restartWindow && TrackerInv(o, s) && Enabled(s, e)
    ensures var t := Apply(o, s, e);
      id in t.tracker ==>
        t.tracker[id].attempts == if CountsCrash(o, s, e, id) then 1 + AttemptsOf(s, id)
                                  else if EndsStreak(s, e, id) then 0
                                  else AttemptsOf(s, id)
  {
    if e.First? {
      if Carries(s.servers, e.report.id, Some(e.report.runner)) {
        EscalatesExactlyOnCrashLoop(o, s, e.report);
        if e.report.id in Apply(o, s, e).servers { CrashClearsTheRuntime(o, s, e.report); }
      }
    } else if e.Second? {
      if MayRestart(s, e.restart) {
        RestartSettlesTheRecord(s, e.restart, e.outcome, e.cancelled);
      } else {
        StaleRestartChangesNothing(s, e.restart, e.outcome, e.cancelled);
      }
    }
  }

  lemma StepFollowsStreak(o: Options, s: State, e: Event, id: Id, n: nat)
    requires 0 < o.restartWindow && TrackerInv(o, s) && Enabled(s, e)
    requires id in s.tracker ==> AttemptsOf(s, id) == n
    ensures id in Apply(o, s, e).tracker ==> AttemptsOf(Apply(o, s, e), id) == StreakStep(o, s, e, id, n)
  {
    StepCounts(o, s, e, id);
  }

  /** Over every run the attempts of the live record are that count. */
  lemma {:induction false} AttemptsAreTheStreak(o: Options, s: State, events: seq<Event>, id: Id, n: nat)
    requires o.Valid() && Inv(o, s) && IsRun(o, s, events)
    requires id in s.tracker ==> AttemptsOf(s, id) == n
    ensures var t := Reach(o, s, events); id in t.tracker ==> AttemptsOf(t, id) == Streak(o, s, events, id, n)
    decreases |events|
  {
    if events != [] {
      StepKeepsInv(o, s, events[0]);
      StepFollowsStreak(o, s, events[0], id, n);
      AttemptsAreTheStreak(o, Apply(o, s, events[0]), events[1..], id, StreakStep(o, s, events[0], id, n));
    }
  }

  /** A crash that leads to a restart waits the capped doubling for the number of crashes in
  a row, this one included. */
  lemma CrashWaitsTheRamp(o: Options, now: Time, events: seq<Event>, report: Report)
    requires o.Valid() && IsRun(o, Initial(now), events)
    requires CountsCrash(o, Reach(o, Initial(now), events), First(report), report.id)
    ensures
      var s, id := Reach(o, Initial(now), events), report.id;
      var t := ApplyFirst(o, s, report);
      id in t.newest && t.newest[id].delay == o.Delay(InARow(s, id, Streak(o, Initial(now), events, id, 0)))
  {
    InitialInv(o, now);
    WaitsTheRamp(o, Initial(now), events, report);
  }

  /** One more than `n`, or the first if there is no record. */
  function InARow(s: State, id: Id, n: nat): nat {
    1 + if id in s.tracker then n else 0
  }

  lemma WaitsTheRamp(o: Options, s: State, events: seq<Event>, report: Report)
    requires o.Valid() && Inv(o, s) && IsRun(o, s, events) && s.tracker == map[]
    requires CountsCrash(o, Reach(o, s, events), First(report), report.id)
    ensures
      var t, id := Reach(o, s, events), report.id;
      var u := ApplyFirst(o, t, report);
      id in u.newest && u.newest[id].delay == o.Delay(InARow(t, id, Streak(o, s, events, id, 0)))
  {
    RunKeepsInv(o, s, events);
    AttemptsAreTheStreak(o, s, events, report.id, 0);
    CrashWaits(o, Reach(o, s, events), report);
  }

  lemma CrashWaits(o: Options, s: State, report: Report)
    requires o.Valid() && Inv(o, s) && CountsCrash(o, s, First(report), report.id)
    ensures var id, t := report.id, ApplyFirst(o, s, report);
      && id in t.newest && t.newest[id].delay == o.Delay(1 + AttemptsOf(s, id))
      && id in t.tracker && t.tracker[id].attempts == 1 + AttemptsOf(s, id)
  {
    EscalatesExactlyOnCrashLoop(o, s, report);
    CrashClearsTheRuntime(o, s, report);
    CrashSchedulesOneRestart(o, s, report);
  }

  /** The first crash of a record waits the initial backoff. */
  lemma FirstCrashWaitsTheInitialBackoff(o: Options, s: State, report: Report)
    requires o.Valid() && Inv(o, s) && CountsCrash(o, s, First(report), report.id)
    requires report.id !in s.tracker
    ensures var t := ApplyFirst(o, s, report);
      report.id in t.newest && t.newest[report.id].delay == o.backoffInitial
  {
    CrashWaits(o, s, report);
  }

  /** Neither a crash that leads to a restart nor the end of the streak is among the steps. */
  predicate Undisturbed(o: Options, s: State, events: seq<Event>, id: Id)
    decreases |events|
  {
    events == [] ||
    (!CountsCrash(o, s, events[0], id) && !EndsStreak(s, events[0], id)
     && Undisturbed(o, Apply(o, s, events[0]), events[1..], id))
  }

  lemma {:induction false} UndisturbedStreak(o: Options, s: State, events: seq<Event>, id: Id, n: nat)
    requires Undisturbed(o, s, events, id)
    ensures Streak(o, s, events, id, n) == n
    decreases |events|
  {
    if events != [] {
      UndisturbedStreak(o, Apply(o, s, events[0]), events[1..], id, n);
    }
  }

  /** The next crash of the same record, with no successful restart in between, waits twice
  as long, or the maximum if that is not below it. */
  lemma NextCrashDoublesTheWait(o: Options, s: State, one: Report, events: seq<Event>, two: Report)
    requires o.Valid() && Inv(o, s) && Enabled(s, First(one)) && one.id == two.id
    requires CountsCrash(o, s, First(one), one.id)
    requires var t := ApplyFirst(o, s, one); IsRun(o, t, events) && Undisturbed(o, t, events, one.id)
    requires var u := Reach(o, ApplyFirst(o, s, one), events);
      CountsCrash(o, u, First(two), one.id) && one.id in u.tracker
    ensures
      var id, t := one.id, ApplyFirst(o, s, one);
      var u := ApplyFirst(o, Reach(o, t, events), two);
      && id in t.newest && id in u.newest
      && u.newest[id].delay == if 2 * t.newest[id].delay + 1 < o.backoffMax then 2 * t.newest[id].delay
                               else o.backoffMax
  {
    var id, t := one.id, ApplyFirst(o, s, one);
    CrashWaits(o, s, one);
    StepKeepsInv(o, s, First(one));
    var n := AttemptsOf(t, id);
    AttemptsAreTheStreak(o, t, events, id, n);
    UndisturbedStreak(o, t, events, id, n);
    RunKeepsInv(o, t, events);
    CrashWaits(o, Reach(o, t, events), two);
    DelayDoubles(o, n);
  }

  lemma DelayDoubles(o: Options, n: nat)
    requires 0 < o.backoffInitial <= o.backoffMax && 1 <= n
    ensures o.Delay(n + 1) == if 2 * o.Delay(n) + 1 < o.backoffMax then 2 * o.Delay(n) else o.backoffMax
  {
    BackoffIsIdealExactlyWhen(o.backoffInitial, o.backoffMax, n);
    BackoffIsIdealExactlyWhen(o.backoffInitial, o.backoffMax, n + 1);
    BackoffBoundedAndMonotone(o.backoffInitial, o.backoffMax, n, n + 1);
  }

  /** A crash after a restart that did not fail, with no other crash in between, waits the
  initial backoff again. */
  lemma CrashAfterRestartStartsOver(o: Options, s: State, e: Event, events: seq<Event>, report: Report)
    requires o.Valid() && Inv(o, s) && Enabled(s, e) && EndsStreak(s, e, report.id)
    requires var t := Apply(o, s, e); IsRun(o, t, events) && Undisturbed(o, t, events, report.id)
    requires CountsCrash(o, Reach(o, Apply(o, s, e), events), First(report), report.id)
    ensures
      var u := ApplyFirst(o, Reach(o, Apply(o, s, e), events), report);
      report.id in u.newest && u.newest[report.id].delay == o.backoffInitial
  {
    var id, t := report.id, Apply(o, s, e);
    StepCounts(o, s, e, id);
    StepKeepsInv(o, s, e);
    AttemptsAreTheStreak(o, t, events, id, 0);
    UndisturbedStreak(o, t, events, id, 0);
    RunKeepsInv(o, t, events);
    CrashWaits(o, Reach(o, t, events), report);
  }

  // ---------------------------------------------------------------- generations

  /** Over every run the generation of the live record is the number of crashes in it: each
  crash opens one, and nothing else does. */
  lemma {:induction false} GenerationsCountCrashes(o: Options, s: State, events: seq<Event>)
    requires o.Valid() && Inv(o, s) && IsRun(o, s, events)
    requires OneGenerationPerCrash(s)
    ensures OneGenerationPerCrash(Reach(o, s, events))
    decreases |events|
  {
    if events != [] {
      StepKeepsInv(o, s, events[0]);
      StepCountsGenerations(o, s, events[0]);
      GenerationsCountCrashes(o, Apply(o, s, events[0]), events[1..]);
    }
  }

  predicate OneGenerationPerCrash(s: State) {
    forall id :: id in s.tracker ==> s.tracker[id].gen == |s.tracker[id].crashes|
  }

  lemma StepCountsGenerations(o: Options, s: State, e: Event)
    requires OneGenerationPerCrash(s)
    ensures OneGenerationPerCrash(Apply(o, s, e))
  {
    if e.First? {
      if Carries(s.servers, e.report.id, Some(e.report.runner)) {
        ActsOnFailures(o, s, e.report);
        if e.report.id in Apply(o, s, e).servers { CrashClearsTheRuntime(o, s, e.report); }
      }
    } else if e.Second? {
      SecondRecords(s, e.restart, e.outcome, e.cancelled);
    }
  }
}
