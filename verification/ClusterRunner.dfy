/** The cluster's own code: every method is one critical section of the mutex, written
with the loops and field updates it consists of, and is proved to perform exactly the
corresponding step of the transition system. */
module ClusterRunner {
  import opened Wrappers
  import opened Fsm
  import opened Names
  import opened HttpConfig
  import opened CrashTracker
  import opened Entries
  import opened Cluster
  import opened ClusterSafety
  import opened ClusterPipeline

  class Runner {
    const options: Options
    var status: Status
    var currentEntries: Servers
    var restartTracker: map<Id, RestartState>

    // The surroundings that the code acts on but does not store.
    ghost var world: World
    ghost var reports: set<Report>
    ghost var restarts: set<Restart>
    ghost var newest: map<Id, Restart>
    ghost var records: map<Id, Record>   // what the crash records hold, see Valid
    ghost var issued: seq<(Id, RestartState)>   // every record ever created, by serial number
    ghost var nextSerial: nat
    ghost var ctxLive: bool
    ghost var down: bool
    ghost var now: Time

    /** The crash records hold what `records` says, and each is the one created for its id
    under its serial number. */
    ghost predicate Valid()
      reads this`restartTracker, this`records, this`nextSerial, this`issued
      reads restartTracker.Values
    {
      && records.Keys == restartTracker.Keys
      && (forall id :: id in restartTracker ==>
            Holds(restartTracker[id], records[id]) && Issued(id, restartTracker[id]))
      && |issued| == nextSerial && (forall n :: 0 <= n < |issued| ==> issued[n].1.serial == n)
    }

    /** The record was created for `id`. */
    ghost predicate Issued(id: Id, st: RestartState)
      reads this`issued
    {
      st.serial < |issued| && issued[st.serial] == (id, st)
    }

    /** Different ids have different records. */
    lemma Apart(id: Id)
      requires Valid() && id in restartTracker
      ensures forall k :: k in restartTracker && k != id ==> restartTracker[k] != restartTracker[id]
    {}

    ghost predicate Holds(st: RestartState, r: Record)
      reads st
    {
      r == Record(st.serial, st.failures, st.attempts, st.gen, r.crashes)
    }

    ghost function Abs(): State
      reads this
    {
      State(status, currentEntries, records, world, reports, restarts, newest, nextSerial, ctxLive, down, now)
    }

    constructor (options: Options, ghost now: Time)
      ensures Valid() && this.options == options && Abs() == Initial(now)
    {
      this.options := options;
      status, currentEntries, restartTracker := Running, map[], map[];
      world, reports, restarts, newest := World({}, {}, {}), {}, {}, map[];
      records, issued, nextSerial, ctxLive, down, this.now := map[], [], 0, true, false, now;
    }

    // -------------------------------------------------------------- config updates

    /** processConfigUpdate. `outcomes` is what the factory and the readiness wait will
    report for each id, `cut` whether the wait for released ports ends by cancellation. An
    update that is not admitted touches no entry. An admitted one carries out some possible
    pending collection, and ends in Error exactly when a start failed; unless a stop key
    collides with an id, the new state is that of the transition system. */
    method ProcessConfigUpdate(configs: map<Id, Option<Config>>, outcomes: Outcomes, cut: bool, ghost cancelled: bool)
      returns (ok: bool, ghost pending: Servers)
      requires options.Valid() && WellKeyed(currentEntries)
      modifies this`status, this`currentEntries, this`world, this`ctxLive
      ensures !Admits(old(status)) ==> ok && Abs() == old(Abs()).(ctxLive := ctxLive)
      ensures Admits(old(status)) ==>
        && CarriedOut(options, old(Abs()), Wanted(configs), outcomes, cut, pending, Abs(), !ok)
        && status == if ok then Running else Error
      ensures !Collides(old(currentEntries), Wanted(configs)) ==>
        Abs() == ApplyUpdate(options, old(Abs()), Wanted(configs), outcomes, cut, cancelled)
    {
      var admitted := Admit(cancelled);
      if !admitted { return true, map[]; }
      ok, pending := UpdateAdmitted(configs, outcomes, cut);
    }

    method UpdateAdmitted(configs: map<Id, Option<Config>>, outcomes: Outcomes, cut: bool)
      returns (ok: bool, ghost pending: Servers)
      requires options.Valid() && WellKeyed(currentEntries) && status == Reloading
      modifies this`status, this`currentEntries, this`world
      ensures CarriedOut(options, old(Abs()), Wanted(configs), outcomes, cut, pending, Abs(), !ok)
      ensures status == if ok then Running else Error
      ensures !Collides(old(currentEntries), Wanted(configs)) ==>
        var results := UpdateResults(options, old(currentEntries), Wanted(configs), outcomes, cut);
        && Abs() == Reconciled(old(Abs()), Wanted(configs), results).(status := status)
        && ok == !AnyFailed(results)
    {
      var hadFailure;
      hadFailure, pending := Reconcile(configs, outcomes, cut);
      FinishUpdate(hadFailure);
      ok := !hadFailure;
    }

    method FinishUpdate(hadFailure: bool)
      requires options.Valid() && status == Reloading
      modifies this`status
      ensures status == if hadFailure then Error else Running
    {
      if hadFailure {
        status := Error;
      } else {
        status := TransitionIf(options.table, status, Reloading, Running);
      }
    }

    /** TransitionIfCurrentState. */
    method TryTransition(from: Status, target: Status) returns (done: bool)
      modifies this`status
      ensures done <==> old(status) == from && (from, target) in options.table
      ensures status == TransitionIf(options.table, old(status), from, target)
    {
      done := status == from && (status, target) in options.table;
      if done { status := target; }
    }

    /** The admission gate: the guarded transition from Running first, and only if it is
    refused a look at the state, which lets Error pass by force. The context may be
    cancelled at any moment of an update. */
    method Admit(ghost cancelled: bool) returns (admitted: bool)
      requires options.Valid()
      modifies this`status, this`ctxLive
      ensures ctxLive == (old(ctxLive) && !cancelled)
      ensures admitted == Admits(old(status))
      ensures status == if admitted then Reloading else old(status)
    {
      ctxLive := ctxLive && !cancelled;
      admitted := TryTransition(Running, Reloading);
      if !admitted && status == Error {
        status := Reloading;
        admitted := true;
      }
    }

    /** The two phases and the commit of an admitted update. */
    method Reconcile(configs: map<Id, Option<Config>>, outcomes: Outcomes, cut: bool)
      returns (hadFailure: bool, ghost pending: Servers)
      requires WellKeyed(currentEntries)
      modifies this`currentEntries, this`world
      ensures CarriedOut(options, old(Abs()), Wanted(configs), outcomes, cut, pending, Abs(), hadFailure)
      ensures !Collides(old(currentEntries), Wanted(configs)) ==>
        var results := UpdateResults(options, old(currentEntries), Wanted(configs), outcomes, cut);
        && Abs() == Reconciled(old(Abs()), Wanted(configs), results)
        && hadFailure == AnyFailed(results)
    {
      var desired := NewEntries(configs);
      assert ConfigsOf(desired) == Wanted(configs);
      var toDo := BuildPendingEntries(currentEntries, desired);
      pending := toDo;
      ghost var plan := if Collides(currentEntries, Wanted(configs)) then None
                        else Some(Plan(currentEntries, Wanted(configs), world));
      if plan.Some? { PlanSettles(options, plan.value, outcomes, cut); }
      hadFailure := CarryOut(toDo, outcomes, cut, plan);
    }

    method CarryOut(pending: Servers, outcomes: Outcomes, cut: bool, ghost plan: Option<Plan>)
      returns (hadFailure: bool)
      requires Follows(plan, pending)
      modifies this`currentEntries, this`world
      ensures var stops, results := WithAction(pending, ActionStop), Executed(options, pending, outcomes, cut);
        && currentEntries == Committed(WorkAt(pending, stops, results))
        && world == WorldAfter(old(world), RunnersOf(pending, stops), results)
        && hadFailure == AnyFailed(results)
    {
      var updated;
      updated, hadFailure := ExecuteActions(pending, outcomes, cut, plan);
      currentEntries := Commit(updated);
    }

    /** The pending collection that an update carries out, if any. */
    ghost predicate Follows(plan: Option<Plan>, pending: Servers)
      reads this`world
    {
      plan.Some? ==>
        && !Collides(plan.value.before, plan.value.wanted)
        && pending == Pending(plan.value.before, plan.value.wanted) && world == plan.value.start
    }

    /** All stops of the plan are done, and `results` of its starts. */
    ghost predicate DoneStopping(plan: Option<Plan>, results: Outcomes, work: Servers)
      reads this`world
    {
      plan.Some? ==>
        var stops := StopKeys(plan.value.before, plan.value.wanted);
        AtWork(plan.value, stops, stops, results, world, work)
    }

    /** executeActions: stop, wait for the ports to be released, start. */
    method ExecuteActions(pending: Servers, outcomes: Outcomes, cut: bool, ghost plan: Option<Plan>)
      returns (current: Servers, hadFailure: bool)
      requires Follows(plan, pending)
      modifies this`world
      ensures var stops, results := WithAction(pending, ActionStop), Executed(options, pending, outcomes, cut);
        && current == WorkAt(pending, stops, results)
        && world == WorldAfter(old(world), RunnersOf(pending, stops), results)
        && hadFailure == AnyFailed(results)
    {
      var toStart, toStop := GetPendingActions(pending);
      ghost var stops, starts := WithAction(pending, ActionStop), WithAction(pending, ActionStart);
      ClearThenStart(pending, stops, starts, outcomes);
      ListedIsWanted(toStart);
      ListedIsWanted(toStop);
      NoStarts();
      if plan.Some? { PendingActions(plan.value.before, plan.value.wanted); }
      current := StopPhase(pending, toStop, plan);
      if |toStop| > 0 && |toStart| > 0 && options.restartDelay > 0 && cut { return current, false; }
      current, hadFailure := StartPhase(current, toStart, outcomes, plan);
    }

    method StopPhase(pending: Servers, toStop: seq<Id>, ghost plan: Option<Plan>) returns (current: Servers)
      requires Follows(plan, pending)
      requires plan.Some? ==> SetOf(toStop) == StopKeys(plan.value.before, plan.value.wanted)
      modifies this`world
      ensures current == WorkAt(pending, SetOf(toStop), map[])
      ensures world == old(world).(stopped := old(world).stopped + RunnersOf(pending, SetOf(toStop)))
      ensures DoneStopping(plan, map[], current)
    {
      if |toStop| > 0 {
        current := StopServers(pending, toStop, plan);
      } else {
        ListedIsWanted(toStop);
        if plan.Some? { StoppingIsAtWork(plan.value, {}); }
        current := pending;
      }
    }

    method StartPhase(current: Servers, toStart: seq<Id>, outcomes: Outcomes, ghost plan: Option<Plan>)
      returns (r: Servers, hadFailure: bool)
      requires Distinct(toStart) && DoneStopping(plan, map[], current)
      requires plan.Some? ==> SetOf(toStart) == Starts(plan.value.before, plan.value.wanted)
      modifies this`world
      ensures var results := Started(current, SetOf(toStart), outcomes);
        && r == WorkAt(current, {}, results)
        && world == WorldAfter(old(world), {}, results)
        && hadFailure == AnyFailed(results)
    {
      if |toStart| > 0 {
        r, hadFailure := StartServers(current, toStart, outcomes, plan);
      } else {
        NoStarts();
        r, hadFailure := current, false;
      }
    }

    /** stopServers: stop every running server on the list, then clear their runtimes. */
    method StopServers(current: Servers, toStop: seq<Id>, ghost plan: Option<Plan>) returns (r: Servers)
      requires Follows(plan, current)
      requires plan.Some? ==> SetOf(toStop) == StopKeys(plan.value.before, plan.value.wanted)
      modifies this`world
      ensures r == WorkAt(current, SetOf(toStop), map[])
      ensures world == old(world).(stopped := old(world).stopped + RunnersOf(current, SetOf(toStop)))
      ensures DoneStopping(plan, map[], r)
    {
      StopAll(current, toStop, plan);
      r := ClearAll(current, toStop, plan);
    }

    method ClearAll(current: Servers, toStop: seq<Id>, ghost plan: Option<Plan>) returns (r: Servers)
      requires plan.Some? ==>
        && SetOf(toStop) == StopKeys(plan.value.before, plan.value.wanted)
        && AtWork(plan.value, SetOf(toStop), {}, map[], world, current)
      ensures r == WorkAt(current, SetOf(toStop), map[])
      ensures DoneStopping(plan, map[], r)
    {
      r := current;
      NoStarts();
      ClearThenStart(current, {}, {}, map[]);
      if plan.Some? { ClearThenStart(Pending(plan.value.before, plan.value.wanted), {}, {}, map[]); }
      for i := 0 to |toStop|
        invariant r == WorkAt(current, SetOf(toStop[..i]), map[])
        invariant plan.Some? ==>
          AtWork(plan.value, SetOf(toStop), SetOf(toStop[..i]), map[], world, r)
      {
        var id := toStop[i];
        SetOfOneMore(toStop, i);
        var updated := ReplaceRuntime(r, id, None);
        if updated.Some? { r := updated.value; }
        if plan.Some? { ClearingIsAtWork(plan.value, SetOf(toStop[..i + 1])); }
      }
      assert toStop[..|toStop|] == toStop;
    }

    method StopAll(current: Servers, toStop: seq<Id>, ghost plan: Option<Plan>)
      requires Follows(plan, current)
      requires plan.Some? ==> SetOf(toStop) == StopKeys(plan.value.before, plan.value.wanted)
      modifies this`world
      ensures world == old(world).(stopped := old(world).stopped + RunnersOf(current, SetOf(toStop)))
      ensures plan.Some? ==> AtWork(plan.value, SetOf(toStop), {}, map[], world, current)
    {
      if plan.Some? { StoppingIsAtWork(plan.value, {}); }
      for i := 0 to |toStop|
        invariant world == old(world).(stopped := old(world).stopped + RunnersOf(current, SetOf(toStop[..i])))
        invariant plan.Some? ==> AtWork(plan.value, SetOf(toStop[..i]), {}, map[], world, current)
      {
        var id := toStop[i];
        SetOfOneMore(toStop, i);
        if id in current && current[id].runner.Some? {
          world := world.(stopped := world.stopped + {current[id].runner.value});
        }
        if plan.Some? { StoppingIsAtWork(plan.value, SetOf(toStop[..i + 1])); }
      }
      assert toStop[..|toStop|] == toStop;
    }

    /** startServers: start each server on the list; failed ones lose their entry. */
    method StartServers(current: Servers, toStart: seq<Id>, outcomes: Outcomes, ghost plan: Option<Plan>)
      returns (r: Servers, hadFailure: bool)
      requires Distinct(toStart) && DoneStopping(plan, map[], current)
      requires plan.Some? ==> SetOf(toStart) == Starts(plan.value.before, plan.value.wanted)
      modifies this`world
      ensures var results := Started(current, SetOf(toStart), outcomes);
        && r == WorkAt(current, {}, results)
        && world == WorldAfter(old(world), {}, results)
        && hadFailure == AnyFailed(results)
    {
      r, hadFailure := current, false;
      ghost var results: Outcomes := map[];
      NoStarts();
      for i := 0 to |toStart|
        invariant results == Started(current, SetOf(toStart[..i]), outcomes)
        invariant r == WorkAt(current, {}, results)
        invariant world == WorldAfter(old(world), {}, results)
        invariant hadFailure == AnyFailed(results)
        invariant DoneStopping(plan, results, r)
      {
        var id := toStart[i];
        StartedOneMore(current, toStart, i, outcomes);
        if id in r {
          var failed;
          r, failed := StartListed(r, current, results, id, OutcomeOf(outcomes, id), old(world));
          hadFailure := hadFailure || failed;
          results := results[id := OutcomeOf(outcomes, id)];
        }
        if plan.Some? { StartingIsAtWork(plan.value, old(world), current, results); }
      }
      assert toStart[..|toStart|] == toStart;
    }

    /** One round of the loop, `results` being the starts made so far. */
    method StartListed(r: Servers, ghost current: Servers, ghost results: Outcomes, id: Id, outcome: Outcome,
                       ghost before: World) returns (r': Servers, failed: bool)
      requires id in r && id !in results
      requires r == WorkAt(current, {}, results) && world == WorldAfter(before, {}, results)
      modifies this`world
      ensures r' == WorkAt(current, {}, results[id := outcome])
      ensures world == WorldAfter(before, {}, results[id := outcome])
      ensures AnyFailed(results[id := outcome]) == (AnyFailed(results) || failed)
    {
      StartOneMore(before, results, id, outcome);
      WorkOneMore(current, results, id, outcome);
      r', failed := StartServer(r, id, outcome);
    }

    /** One round of the loop: create the server, record its runner, and drop it again if
    it does not become ready. */
    method StartServer(current: Servers, id: Id, outcome: Outcome) returns (r: Servers, failed: bool)
      requires id in current
      modifies this`world
      ensures r == if outcome.Succeeded() then WithRuntime(current, id, Some(outcome.runner)) else current - {id}
      ensures world == WorldWith(old(world), outcome)
      ensures failed == outcome.Failed()
    {
      if outcome.FactoryError? {
        r := RemoveEntry(current, id);
        return r, true;
      }
      world := world.(created := world.created + {outcome.runner});
      var updated := ReplaceRuntime(current, id, Some(outcome.runner));
      r := updated.value;
      if outcome.readiness != Ready {
        world := world.(stopped := world.stopped + {outcome.runner});
        r := RemoveEntry(r, id);
      }
      failed := outcome.readiness == NotReady;
    }

    // -------------------------------------------------------------- crash supervision

    /** The live record of `id`, created if there is none. */
    method LiveRecord(id: Id) returns (st: RestartState)
      requires Valid()
      modifies this`restartTracker, this`records, this`nextSerial, this`issued
      ensures Valid() && Abs() == Opened(old(Abs()), id)
      ensures id in restartTracker && restartTracker[id] == st && Issued(id, st)
      ensures st in old(restartTracker.Values) || fresh(st)
      ensures old(issued) <= issued
    {
      if id in restartTracker {
        st := restartTracker[id];
        assert records == records[id := records[id]];
      } else {
        st := NewRecord(id);
      }
    }

    method NewRecord(id: Id) returns (st: RestartState)
      requires Valid() && id !in restartTracker
      modifies this`restartTracker, this`records, this`nextSerial, this`issued
      ensures Valid() && Abs() == Opened(old(Abs()), id)
      ensures id in restartTracker && restartTracker[id] == st && Issued(id, st) && fresh(st)
      ensures old(issued) <= issued
    {
      st := new RestartState(nextSerial);
      Install(id, st);
    }

    method Install(id: Id, st: RestartState)
      requires Valid() && id !in restartTracker
      requires Holds(st, Record(nextSerial, [], 0, 0, []))
      modifies this`restartTracker, this`records, this`nextSerial, this`issued
      ensures Valid() && Abs() == Opened(old(Abs()), id)
      ensures restartTracker == old(restartTracker)[id := st] && issued == old(issued) + [(id, st)]
    {
      restartTracker, records := restartTracker[id := st], Opened(Abs(), id).tracker;
      issued, nextSerial := issued + [(id, st)], nextSerial + 1;
    }

    /** recordFailureLocked. */
    method RecordFailureLocked(id: Id, time: Time) returns (st: RestartState)
      requires Valid() && time == now
      modifies this`restartTracker, this`records, this`nextSerial, this`issued, restartTracker.Values
      ensures Valid() && Abs() == Recorded(options, old(Abs()), id)
      ensures id in restartTracker && restartTracker[id] == st && Issued(id, st)
      ensures st in old(restartTracker.Values) || fresh(st)
      ensures old(issued) <= issued
    {
      st := LiveRecord(id);
      AppendFailure(id, st, time);
    }

    method AppendFailure(id: Id, st: RestartState, time: Time)
      requires Valid() && id in restartTracker && restartTracker[id] == st && time == now
      modifies this`records, st`failures
      ensures Valid() && Abs() == Crashed(options, old(Abs()), id)
    {
      Apart(id);
      st.RecordFailure(time, options.restartWindow);
      records := records[id := WithFailure(records[id], time, options.restartWindow)];
    }

    /** Counts the restart attempt and opens a new generation. */
    method CountAttempt(id: Id, st: RestartState)
      requires Valid() && id in restartTracker && restartTracker[id] == st
      modifies this`records, st`attempts, st`gen
      ensures Valid() && Abs() == Counted(old(Abs()), id)
      ensures st.attempts == old(st.attempts) + 1 && st.gen == old(st.gen) + 1
    {
      Apart(id);
      records := Counted(Abs(), id).tracker;
      st.CountAttempt();
    }

    /** Clears the dead runtime and leaves a supervisor waiting, which goes on with `gen`
    and `backoff`. */
    method Schedule(id: Id, st: RestartState) returns (gen: nat, backoff: nat)
      requires Valid() && 0 < options.backoffInitial <= options.backoffMax
      requires id in restartTracker && restartTracker[id] == st && id in currentEntries
      modifies this`currentEntries, this`records, this`restarts, this`newest, st`attempts, st`gen
      ensures Valid() && Abs() == Scheduled(options, old(Abs()), id)
      ensures newest[id] == Restart(id, st.serial, gen, backoff)
      ensures st.attempts == old(st.attempts) + 1 && gen == st.gen == old(st.gen) + 1
      ensures backoff == options.Delay(st.attempts)
    {
      CountAttempt(id, st);
      gen, backoff := BackOff(id, st);
      LeaveWaiting(id, gen, backoff, st.serial);
    }

    method BackOff(id: Id, st: RestartState) returns (gen: nat, backoff: nat)
      requires Valid() && 0 < options.backoffInitial <= options.backoffMax
      requires id in restartTracker && restartTracker[id] == st
      ensures NextRestart(options, Abs(), id) == Restart(id, st.serial, gen, backoff)
      ensures gen == st.gen && backoff == options.Delay(st.attempts)
    {
      gen := st.gen;
      BackoffIsIdealExactlyWhen(options.backoffInitial, options.backoffMax, st.attempts);
      ghost var peak;
      backoff, peak := BackoffFor(options.backoffInitial, options.backoffMax, st.attempts);
    }

    method LeaveWaiting(id: Id, gen: nat, backoff: nat, ghost serial: nat)
      requires id in currentEntries
      modifies this`currentEntries, this`restarts, this`newest
      ensures Abs() == LeftWaiting(old(Abs()), Restart(id, serial, gen, backoff))
    {
      var updated := ReplaceRuntime(currentEntries, id, None);
      currentEntries := updated.value;
      ghost var restart := Restart(id, serial, gen, backoff);
      restarts, newest := restarts + {restart}, newest[id := restart];
    }

    /** Gives up on `id`: its entry and its record go, and the cluster reports Error. */
    method Escalate(id: Id)
      requires Valid()
      modifies this`currentEntries, this`restartTracker, this`records, this`status
      ensures Valid()
      ensures Abs() == Escalated(old(Abs()), id)
      ensures status == Error && id !in currentEntries && id !in restartTracker
    {
      currentEntries := RemoveEntry(currentEntries, id);
      restartTracker, records := restartTracker - {id}, records - {id};
      status := Error;
    }

    /** superviseRestart up to the backoff. `scheduled` is false when the crash is dropped
    or escalates. */
    method BeginSupervision(id: Id, crashed: Instance, time: Time)
      returns (scheduled: bool, st: RestartState?, gen: nat, backoff: nat)
      requires Valid() && 0 < options.backoffInitial <= options.backoffMax && time == now
      modifies this`currentEntries, this`restartTracker, this`status, restartTracker.Values
      modifies this`records, this`nextSerial, this`issued, this`reports, this`restarts, this`newest
      ensures Valid()
      ensures old(issued) <= issued
      ensures Abs() == ApplyFirst(options, old(Abs()), Report(id, crashed))
      ensures scheduled ==>
        st != null && Issued(id, st) && id in newest && newest[id] == Restart(id, st.serial, gen, backoff)
    {
      scheduled, st, gen, backoff := false, null, 0, 0;
      reports := reports - {Report(id, crashed)};
      if id !in currentEntries || currentEntries[id].runner != Some(crashed) {
        return;
      }
      scheduled, st, gen, backoff := ActOnCrash(id, time);
    }

    method ActOnCrash(id: Id, time: Time) returns (scheduled: bool, st: RestartState, gen: nat, backoff: nat)
      requires Valid() && 0 < options.backoffInitial <= options.backoffMax && time == now && id in currentEntries
      modifies this`currentEntries, this`restartTracker, this`status, restartTracker.Values
      modifies this`records, this`nextSerial, this`issued, this`restarts, this`newest
      ensures Valid() && Abs() == Acted(options, old(Abs()), id)
      ensures old(issued) <= issued
      ensures scheduled ==> Issued(id, st) && id in newest && newest[id] == Restart(id, st.serial, gen, backoff)
    {
      scheduled, gen, backoff := false, 0, 0;
      st := RecordFailureLocked(id, time);
      if |st.failures| > options.maxRestarts {
        Escalate(id);
        return;
      }
      gen, backoff := Schedule(id, st);
      scheduled := true;
    }

    /** superviseRestart after the backoff: check the guards again, start the server, and
    escalate if that fails. `ctxErr` is ctx.Err() != nil. */
    method FinishSupervision(id: Id, st: RestartState, gen: nat, ghost delay: nat, outcome: Outcome,
                             ctxErr: bool, ghost cancelled: bool)
      requires Valid() && ctxErr == !(ctxLive && !cancelled) && Issued(id, st)
      modifies this`currentEntries, this`restartTracker, this`status, this`world, st`attempts
      modifies this`records, this`restarts, this`ctxLive
      ensures Valid()
      ensures Abs() == ApplySecond(old(Abs()), Restart(id, st.serial, gen, delay), outcome, cancelled)
    {
      restarts, ctxLive := restarts - {Restart(id, st.serial, gen, delay)}, ctxLive && !cancelled;
      var proceed := MayGoOn(id, gen, Restart(id, st.serial, gen, delay));
      if proceed { Retry(id, st, outcome, ctxErr); }
    }

    method Retry(id: Id, st: RestartState, outcome: Outcome, ctxErr: bool)
      requires Valid() && ctxErr == !ctxLive && Issued(id, st)
      requires id in currentEntries && id in restartTracker
      modifies this`currentEntries, this`restartTracker, this`status, this`world, this`records, st`attempts
      ensures Valid()
      ensures Abs() == Retried(old(Abs()), id, st.serial, outcome)
    {
      var failed := RestartOne(id, outcome);
      if !failed {
        ResetAttempts(id, st);
      } else if !ctxErr {
        Escalate(id);
      }
    }

    /** The guards that are checked again after the backoff. */
    method MayGoOn(id: Id, gen: nat, ghost restart: Restart) returns (proceed: bool)
      requires Valid() && restart.id == id && restart.gen == gen
      ensures proceed == MayRestart(Abs(), restart)
    {
      if id !in currentEntries || currentEntries[id].runner != None || id !in restartTracker {
        return false;
      }
      assert Holds(restartTracker[id], records[id]);
      return restartTracker[id].gen == gen;
    }

    /** The record the supervisor was scheduled in need not be the live one any more. */
    method ResetAttempts(id: Id, st: RestartState)
      requires Valid() && id in restartTracker && Issued(id, st)
      modifies this`records, st`attempts
      ensures Valid()
      ensures Abs() == RampReset(old(Abs()), id, st.serial)
      ensures st.attempts == 0 && (restartTracker[id] == st ==> records[id].attempts == 0)
    {
      assert restartTracker[id].serial == records[id].serial;
      st.attempts := 0;
      if restartTracker[id] == st {
        records := records[id := records[id].(attempts := 0)];
      }
    }

    /** The startServers call of a restart: a list of one id. */
    method RestartOne(id: Id, outcome: Outcome) returns (failed: bool)
      requires id in currentEntries
      modifies this`currentEntries, this`world
      ensures Abs() == StartedOne(old(Abs()), id, outcome)
      ensures failed == outcome.Failed()
    {
      ghost var before, results := currentEntries, map[id := outcome];
      currentEntries, failed := StartServers(currentEntries, [id], map[id := outcome], None);
      assert SetOf([id]) == {id} by { assert [id][0] == id; }
      assert Started(before, {id}, results) == results;
      WorkOneMore(before, map[], id, outcome);
      assert WorkAt(before, {}, map[]) == before && results == map[][id := outcome];
    }

    // -------------------------------------------------------------- shutdown

    /** shutdown: an update to no servers at all, between two status transitions. */
    method ShutDown()
      requires options.Valid() && WellKeyed(currentEntries)
      modifies this`status, this`currentEntries, this`world, this`down
      ensures Abs() == ApplyShutdown(options, old(Abs()))
    {
      MoveTo(Stopping);
      StopEverything();
      MoveTo(Stopped);
      down := true;
    }

    method StopEverything()
      requires WellKeyed(currentEntries)
      modifies this`currentEntries, this`world
      ensures Abs() == Emptied(old(Abs()))
    {
      UpdateToNothing(options, currentEntries);
      NoStarts();
      var _, _ := Reconcile(map[], map[], false);
    }

    /** A transition whose refusal is ignored. */
    method MoveTo(target: Status)
      modifies this`status
      ensures status == Transition(options.table, old(status), target)
    {
      if (status, target) in options.table { status := target; }
    }
  }
}
