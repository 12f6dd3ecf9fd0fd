/** The intermediate collections of an update, from the pending one to the committed one:
what the code holds after any part of the stops, clears and starts has been carried out. */
module ClusterPipeline {
  import opened Wrappers
  import opened Names
  import opened HttpConfig
  import opened Entries
  import opened Cluster
  import opened ClusterSafety

  /** The working collection once the keys in `cleared` have lost their runtime and the
  ids in `results` have been started. */
  function WorkAt(pending: Servers, cleared: set<Id>, results: Outcomes): Servers {
    map key | key in pending && (key in results ==> results[key].Succeeded()) ::
      if key in results then pending[key].(runner := Some(results[key].runner))
      else if key in cleared then pending[key].(runner := None)
      else pending[key]
  }

  /** The outcomes of starting those ids of `ids` that have an entry. */
  function Started(pending: Servers, ids: set<Id>, outcomes: Outcomes): Outcomes {
    map id | id in ids && id in pending :: OutcomeOf(outcomes, id)
  }

  // ---------------------------------------------------------------- the pending collection

  function StopKeys(before: Servers, wanted: map<Id, Config>): set<Id> {
    WithAction(Pending(before, wanted), ActionStop)
  }

  lemma PendingActions(before: Servers, wanted: map<Id, Config>)
    requires !Collides(before, wanted)
    ensures WithAction(Pending(before, wanted), ActionStart) == Starts(before, wanted)
    ensures forall key :: key in StopKeys(before, wanted) <==>
      Dropped(before, wanted, key) || (IsStopKey(key) && Replaced(before, wanted, BaseOf(key)))
  {
    forall key ensures key in Pending(before, wanted) <==> PendingAt(before, wanted, key).Some? {
      PendingLookup(before, wanted, key);
    }
    forall key | IsStopKey(key) ensures StopKey(BaseOf(key)) == key { BaseInverse(key); }
  }

  lemma StoppedRunners(before: Servers, wanted: map<Id, Config>)
    requires !Collides(before, wanted)
    ensures RunnersOf(Pending(before, wanted), StopKeys(before, wanted)) == RunnersOf(before, Stops(before, wanted))
  {
    PendingActions(before, wanted);
    var pending := Pending(before, wanted);
    forall key | key in StopKeys(before, wanted)
      ensures pending[key].runner.Some? ==> pending[key].runner.value in RunnersOf(before, Stops(before, wanted))
    {
      PendingLookup(before, wanted, key);
      var id := if Dropped(before, wanted, key) then key else BaseOf(key);
      assert id in Stops(before, wanted) && before[id].runner == pending[key].runner;
    }
    forall id | id in Stops(before, wanted)
      ensures before[id].runner.value in RunnersOf(pending, StopKeys(before, wanted))
    {
      StopKeyInverse(id);
      var key := if Dropped(before, wanted, id) then id else StopKey(id);
      PendingLookup(before, wanted, key);
      assert key in StopKeys(before, wanted) && pending[key].runner == before[id].runner;
    }
  }

  lemma PipelineSettlesKey(before: Servers, wanted: map<Id, Config>, results: Outcomes, key: Id)
    requires !Collides(before, wanted) && results.Keys <= Starts(before, wanted)
    ensures
      var committed := Committed(WorkAt(Pending(before, wanted), StopKeys(before, wanted), results));
      var settled := Settled(before, wanted, results);
      && (key in committed <==> key in settled)
      && (key in committed ==> committed[key] == settled[key])
  {
    PendingLookup(before, wanted, key);
    StopKeyAt(before, wanted, key);
  }

  lemma StopKeyAt(before: Servers, wanted: map<Id, Config>, key: Id)
    requires !Collides(before, wanted)
    ensures key in StopKeys(before, wanted) <==>
      Dropped(before, wanted, key) || (IsStopKey(key) && Replaced(before, wanted, BaseOf(key)))
    ensures key in Starts(before, wanted) ==> key in Pending(before, wanted) && key !in StopKeys(before, wanted)
  {
    PendingActions(before, wanted);
    PendingLookup(before, wanted, key);
  }

  /** Carried through to the commit, the pipeline produces what an update is meant to
  produce: stop keys disappear, actions are cleared, and nothing else is lost or left. */
  lemma PipelineSettles(before: Servers, wanted: map<Id, Config>, results: Outcomes)
    requires !Collides(before, wanted) && results.Keys <= Starts(before, wanted)
    ensures var work := WorkAt(Pending(before, wanted), StopKeys(before, wanted), results);
      Committed(work) == Settled(before, wanted, results)
  {
    var committed := Committed(WorkAt(Pending(before, wanted), StopKeys(before, wanted), results));
    var settled := Settled(before, wanted, results);
    forall key
      ensures key in committed <==> key in settled
      ensures key in committed ==> committed[key] == settled[key]
    {
      PipelineSettlesKey(before, wanted, results, key);
    }
  }

  // ---------------------------------------------------------------- midway

  /** How far an update has come. All stops are carried out before the first runtime is
  cleared, and all runtimes are cleared before the first start. */
  ghost predicate Progress(before: Servers, wanted: map<Id, Config>,
                           stopped: set<Id>, cleared: set<Id>, results: Outcomes) {
    && cleared <= stopped <= StopKeys(before, wanted)
    && results.Keys <= Starts(before, wanted)
    && (cleared != {} ==> stopped == StopKeys(before, wanted))
    && (results != map[] ==> cleared == stopped == StopKeys(before, wanted))
  }

  /** An update: the servers and the world it starts from, and the configurations wanted. */
  datatype Plan = Plan(before: Servers, wanted: map<Id, Config>, start: World)

  /** The world and the working collection are those of an update that has come this far. */
  ghost predicate AtWork(p: Plan, stopped: set<Id>, cleared: set<Id>, results: Outcomes, world: World, work: Servers) {
    && Progress(p.before, p.wanted, stopped, cleared, results)
    && world == WorldAfter(p.start, RunnersOf(Pending(p.before, p.wanted), stopped), results)
    && work == WorkAt(Pending(p.before, p.wanted), cleared, results)
  }

  /** At every point of an update, under every order of its stops and starts, each live
  server is held by exactly one entry of the working collection, and no id has two live
  servers. Servers exiting meanwhile only make fewer of them live. */
  lemma MidwayNothingLeaks(p: Plan, stopped: set<Id>, cleared: set<Id>, results: Outcomes,
                           world: World, work: Servers, r: Instance)
    requires ServersInv(p.before, p.start) && NoLeak(p.before, p.start) && !Collides(p.before, p.wanted)
    requires FreshOutcomes(p.start, results) && AtWork(p, stopped, cleared, results, world, work)
    requires world.Live(r)
    ensures Carries(work, r.id, Some(r)) || Carries(work, StopKey(r.id), Some(r))
    ensures forall k, l :: Carries(work, k, Some(r)) && Carries(work, l, Some(r)) ==> k == l
    ensures forall q :: world.Live(q) && q.id == r.id ==> q == r
  {
    LiveIsHeld(p.before, p.start, p.wanted, stopped, cleared, results, r);
    LiveIsHeldOnce(p.before, p.start, p.wanted, stopped, cleared, results, r);
    LiveIsAlone(p.before, p.start, p.wanted, stopped, cleared, results, r);
  }

  /** The points that the loops of stopServers and startServers pass through. */
  lemma StoppingIsAtWork(p: Plan, stopped: set<Id>)
    requires stopped <= StopKeys(p.before, p.wanted)
    ensures var pending := Pending(p.before, p.wanted);
      AtWork(p, stopped, {}, map[], p.start.(stopped := p.start.stopped + RunnersOf(pending, stopped)), pending)
  {
    NoStarts();
    ClearThenStart(Pending(p.before, p.wanted), {}, {}, map[]);
  }

  lemma NoStarts()
    ensures CreatedBy(map[]) == {} && DiscardedBy(map[]) == {}
  {}

  lemma ClearingIsAtWork(p: Plan, cleared: set<Id>)
    requires cleared <= StopKeys(p.before, p.wanted)
    ensures var pending, stops := Pending(p.before, p.wanted), StopKeys(p.before, p.wanted);
      var world := p.start.(stopped := p.start.stopped + RunnersOf(pending, stops));
      AtWork(p, stops, cleared, map[], world, WorkAt(pending, cleared, map[]))
  {
    NoStarts();
  }

  lemma StartingIsAtWork(p: Plan, world: World, work: Servers, results: Outcomes)
    requires var stops := StopKeys(p.before, p.wanted); AtWork(p, stops, stops, map[], world, work)
    requires results.Keys <= Starts(p.before, p.wanted)
    ensures var stops := StopKeys(p.before, p.wanted);
      AtWork(p, stops, stops, results, WorldAfter(world, {}, results), WorkAt(work, {}, results))
  {
    NoStarts();
    var pending, stops := Pending(p.before, p.wanted), StopKeys(p.before, p.wanted);
    assert WorkAt(WorkAt(pending, stops, map[]), {}, results) == WorkAt(pending, stops, results);
  }

  lemma LiveIsHeld(servers: Servers, world: World, wanted: map<Id, Config>,
                   stopped: set<Id>, cleared: set<Id>, results: Outcomes, r: Instance)
    requires ServersInv(servers, world) && NoLeak(servers, world) && !Collides(servers, wanted)
    requires FreshOutcomes(world, results) && Progress(servers, wanted, stopped, cleared, results)
    requires WorldAfter(world, RunnersOf(Pending(servers, wanted), stopped), results).Live(r)
    ensures
      var work := WorkAt(Pending(servers, wanted), cleared, results);
      Carries(work, r.id, Some(r)) || Carries(work, StopKey(r.id), Some(r))
  {
    var pending := Pending(servers, wanted);
    PendingActions(servers, wanted);
    var id := r.id;
    if r in CreatedBy(results) {
      PendingLookup(servers, wanted, id);
      assert r !in DiscardedBy(results);
    } else {
      assert Carries(servers, id, Some(r));
      StopKeyInverse(id);
      var key := if Replaced(servers, wanted, id) then StopKey(id) else id;
      PendingLookup(servers, wanted, key);
      assert Carries(pending, key, Some(r));
      assert key !in stopped;
    }
  }

  lemma LiveIsHeldOnce(servers: Servers, world: World, wanted: map<Id, Config>,
                       stopped: set<Id>, cleared: set<Id>, results: Outcomes, r: Instance)
    requires ServersInv(servers, world) && !Collides(servers, wanted)
    requires FreshOutcomes(world, results) && Progress(servers, wanted, stopped, cleared, results)
    ensures
      var work := WorkAt(Pending(servers, wanted), cleared, results);
      forall k, l :: Carries(work, k, Some(r)) && Carries(work, l, Some(r)) ==> k == l
  {
    var work := WorkAt(Pending(servers, wanted), cleared, results);
    forall k, l | Carries(work, k, Some(r)) && Carries(work, l, Some(r)) ensures k == l {
      HolderOf(servers, world, wanted, cleared, results, r, k);
      HolderOf(servers, world, wanted, cleared, results, r, l);
    }
  }

  /** The pending key of a server that runs already. */
  function HolderKey(servers: Servers, wanted: map<Id, Config>, id: Id): Id {
    if Replaced(servers, wanted, id) then StopKey(id) else id
  }

  /** Which entry can hold `r`: the started id, or the key of the server it belonged to. */
  lemma HolderOf(servers: Servers, world: World, wanted: map<Id, Config>, cleared: set<Id>, results: Outcomes,
                 r: Instance, k: Id)
    requires ServersInv(servers, world) && FreshOutcomes(world, results)
    requires Carries(WorkAt(Pending(servers, wanted), cleared, results), k, Some(r))
    ensures k in results ==> r == results[k].runner && r !in world.created
    ensures k !in results ==> r in world.created && k == HolderKey(servers, wanted, r.id)
  {
    PendingLookup(servers, wanted, k);
    if k !in results && IsStopKey(k) { BaseInverse(k); }
  }

  lemma LiveIsAlone(servers: Servers, world: World, wanted: map<Id, Config>,
                    stopped: set<Id>, cleared: set<Id>, results: Outcomes, r: Instance)
    requires ServersInv(servers, world) && NoLeak(servers, world) && !Collides(servers, wanted)
    requires FreshOutcomes(world, results) && Progress(servers, wanted, stopped, cleared, results)
    requires WorldAfter(world, RunnersOf(Pending(servers, wanted), stopped), results).Live(r)
    ensures
      var now := WorldAfter(world, RunnersOf(Pending(servers, wanted), stopped), results);
      forall q :: now.Live(q) && q.id == r.id ==> q == r
  {
    var now := WorldAfter(world, RunnersOf(Pending(servers, wanted), stopped), results);
    forall q | now.Live(q) && q.id == r.id ensures q == r {
      if q in CreatedBy(results) || r in CreatedBy(results) {
        StoppedRunners(servers, wanted);
        assert q.id in Starts(servers, wanted);
      } else {
        assert Carries(servers, q.id, Some(q));
        assert Carries(servers, r.id, Some(r));
      }
    }
  }

  // ---------------------------------------------------------------- one more start

  /** The world after one more start. */
  function WorldWith(world: World, outcome: Outcome): World {
    World(world.created + (if outcome.Created? then {outcome.runner} else {}),
          world.stopped + (if outcome.Created? && !outcome.Succeeded() then {outcome.runner} else {}),
          world.exited)
  }

  lemma StartOneMore(world: World, results: Outcomes, id: Id, outcome: Outcome)
    requires id !in results
    ensures WorldAfter(world, {}, results[id := outcome]) == WorldWith(WorldAfter(world, {}, results), outcome)
  {
    var more := results[id := outcome];
    assert id in more && forall k :: k in more && k != id ==> k in results && results[k] == more[k];
    var created := if outcome.Created? then {outcome.runner} else {};
    assert CreatedBy(more) == CreatedBy(results) + created;
    assert DiscardedBy(more) == DiscardedBy(results) + if outcome.Succeeded() then {} else created;
  }

  /** Starting on the cleared collection is the whole pipeline. */
  lemma ClearThenStart(pending: Servers, stops: set<Id>, starts: set<Id>, outcomes: Outcomes)
    ensures var results, cleared := Started(pending, starts, outcomes), WorkAt(pending, stops, map[]);
      && Started(cleared, starts, outcomes) == results
      && WorkAt(cleared, {}, results) == WorkAt(pending, stops, results)
    ensures WorkAt(pending, {}, map[]) == pending
    ensures starts == {} ==> Started(pending, starts, outcomes) == map[]
  {}

  /** What it changes in the working collection and in the verdict on the update. */
  lemma WorkOneMore(pending: Servers, results: Outcomes, id: Id, outcome: Outcome)
    requires id !in results && id in pending
    ensures
      var work := WorkAt(pending, {}, results);
      && id in work
      && WorkAt(pending, {}, results[id := outcome]) ==
           if outcome.Succeeded() then WithRuntime(work, id, Some(outcome.runner)) else work - {id}
    ensures AnyFailed(results[id := outcome]) <==> AnyFailed(results) || outcome.Failed()
  {
    var more := results[id := outcome];
    assert id in more && forall k :: k in results ==> k in more && more[k] == results[k];
  }

  lemma SetOfOneMore(ids: seq<Id>, i: nat)
    requires i < |ids|
    ensures SetOf(ids[..i + 1]) == SetOf(ids[..i]) + {ids[i]}
    ensures Distinct(ids) ==> ids[i] !in SetOf(ids[..i])
  {
    assert ids[..i + 1] == ids[..i] + [ids[i]];
  }

  /** An update to no servers at all stops everything and fails nowhere. */
  lemma UpdateToNothing(o: Options, before: Servers)
    ensures !Collides(before, map[])
    ensures var results := UpdateResults(o, before, map[], map[], false); results == map[] && !AnyFailed(results)
    ensures Settled(before, map[], map[]) == map[]
    ensures RunnersOf(before, Stops(before, map[])) == RunnersOf(before, before.Keys)
    ensures CreatedBy(map[]) == {} && DiscardedBy(map[]) == {}
  {
    var none: map<Id, Config> := map[];
    assert Stops(before, none) == set id | id in before && before[id].runner.Some?;
  }

  /** One more id on the list is one more start, if the collection has an entry for it. */
  lemma StartedOneMore(current: Servers, ids: seq<Id>, i: nat, outcomes: Outcomes)
    requires i < |ids| && Distinct(ids)
    ensures var results := Started(current, SetOf(ids[..i]), outcomes);
      && ids[i] !in results
      && (ids[i] in WorkAt(current, {}, results) <==> ids[i] in current)
      && Started(current, SetOf(ids[..i + 1]), outcomes) ==
           if ids[i] in current then results[ids[i] := OutcomeOf(outcomes, ids[i])] else results
  {
    SetOfOneMore(ids, i);
  }

  /** The outcomes of the starts that executeActions performs on `pending`. */
  function Executed(o: Options, pending: Servers, outcomes: Outcomes, cut: bool): Outcomes {
    var toStart, toStop := WithAction(pending, ActionStart), WithAction(pending, ActionStop);
    if cut && toStop != {} && toStart != {} && o.restartDelay > 0 then map[]
    else Started(pending, toStart, outcomes)
  }

  /** They are the outcomes the update is specified by. */
  lemma ExecutedIsResults(o: Options, before: Servers, wanted: map<Id, Config>, outcomes: Outcomes, cut: bool)
    requires !Collides(before, wanted)
    ensures Executed(o, Pending(before, wanted), outcomes, cut) ==
      Results(before, wanted, outcomes, WaitIsCut(o, before, wanted, cut))
    ensures Executed(o, Pending(before, wanted), outcomes, cut).Keys <= Starts(before, wanted)
  {
    PendingActions(before, wanted);
    assert Stops(before, wanted) != {} <==> StopKeys(before, wanted) != {} by {
      if id :| id in Stops(before, wanted) {
        StopKeyInverse(id);
        assert HolderKey(before, wanted, id) in StopKeys(before, wanted);
      }
      if key :| key in StopKeys(before, wanted) {
        assert (if Dropped(before, wanted, key) then key else BaseOf(key)) in Stops(before, wanted);
      }
    }
    forall id | id in Starts(before, wanted) ensures id in Pending(before, wanted) {
      PendingLookup(before, wanted, id);
    }
  }

  /** What carrying out `pending` means for the servers and the world, with or without a
  collision of keys. */
  ghost predicate CarriedOut(o: Options, s: State, wanted: map<Id, Config>, outcomes: Outcomes, cut: bool,
                             pending: Servers, t: State, failed: bool) {
    var stops, results := WithAction(pending, ActionStop), Executed(o, pending, outcomes, cut);
    && MayBePending(s.servers, wanted, pending)
    && t.servers == Committed(WorkAt(pending, stops, results))
    && t.world == WorldAfter(s.world, RunnersOf(pending, stops), results)
    && failed == AnyFailed(results)
  }

  /** Without one, it is what the update is specified to do. */
  lemma PlanSettles(o: Options, p: Plan, outcomes: Outcomes, cut: bool)
    requires !Collides(p.before, p.wanted)
    ensures var pending, stops := Pending(p.before, p.wanted), StopKeys(p.before, p.wanted);
      var results := UpdateResults(o, p.before, p.wanted, outcomes, cut);
      && Executed(o, pending, outcomes, cut) == results
      && Committed(WorkAt(pending, stops, results)) == Settled(p.before, p.wanted, results)
      && RunnersOf(pending, stops) == RunnersOf(p.before, Stops(p.before, p.wanted))
  {
    StoppedRunners(p.before, p.wanted);
    ExecutedIsResults(o, p.before, p.wanted, outcomes, cut);
    PipelineSettles(p.before, p.wanted, UpdateResults(o, p.before, p.wanted, outcomes, cut));
  }

  lemma ListedIsWanted(ids: seq<Id>)
    ensures |ids| > 0 <==> SetOf(ids) != {}
  {
    if |ids| > 0 { assert ids[0] in SetOf(ids); }
  }
}
