/** Generations are counted per crash record, and escalation deletes the record. This
module exhibits the consequence: a supervisor left over from a deleted record can pass
every guard and restart a server on the schedule of a crash that is long over. */
module StaleRestart {
  import opened Wrappers
  import opened Fsm
  import opened HttpConfig
  import opened CrashTracker
  import opened Entries
  import opened Cluster

  lemma {:induction false} RunThenRun(o: Options, s: State, first: seq<Event>, second: seq<Event>)
    requires IsRun(o, s, first) && IsRun(o, Reach(o, s, first), second)
    ensures IsRun(o, s, first + second)
    ensures Reach(o, s, first + second) == Reach(o, Reach(o, s, first), second)
    decreases |first|
  {
    if first == [] {
      assert first + second == second;
    } else {
      assert (first + second)[1..] == first[1..] + second;
      RunThenRun(o, Apply(o, s, first[0]), first[1..], second);
    }
  }

  lemma ThreeSteps(o: Options, s: State, a: Event, b: Event, c: Event)
    requires Enabled(s, a) && Enabled(Apply(o, s, a), b) && Enabled(Apply(o, Apply(o, s, a), b), c)
    ensures IsRun(o, s, [a, b, c])
    ensures Reach(o, s, [a, b, c]) == Apply(o, Apply(o, Apply(o, s, a), b), c)
  {
    var s1 := Apply(o, s, a);
    var s2 := Apply(o, s1, b);
    var s3 := Apply(o, s2, c);
    assert [a, b, c][1..] == [b, c] && [b, c][1..] == [c] && [c][1..] == [];
    assert IsRun(o, s3, []) && Reach(o, s3, []) == s3;
    assert IsRun(o, s2, [c]) && Reach(o, s2, [c]) == s3;
    assert IsRun(o, s1, [b, c]) && Reach(o, s1, [b, c]) == s3;
  }

  /** No entry, or one that waits for its restart. */
  ghost predicate Idle(s: State, id: Id, config: Config) {
    && s.servers.Keys <= {id}
    && (id in s.servers ==> s.servers[id].runner == None && s.servers[id].id == id)
    && (id in s.servers ==> !Equal(s.servers[id].config, config))
    && s.ctxLive && !s.down && Admits(s.status) && s.reports == {}
    && s.world.stopped == {} && s.world.exited == s.world.created
  }

  /** An update starts a server for `id` and the server crashes: three steps. */
  lemma ServeAndCrash(o: Options, s: State, id: Id, config: Config, r: Instance) returns (events: seq<Event>)
    requires Idle(s, id, config) && r.id == id && r !in s.world.created
    ensures IsRun(o, s, events)
    ensures var t := Reach(o, s, events);
      var entry := ServerEntry(id, config, Some(r), ActionNone);
      t == ApplyFirst(o, Fallen(s, id, entry, r), Report(id, r))
  {
    var wanted := map[id := config];
    var outcomes := map[id := Created(r, Ready)];
    var entry := ServerEntry(id, config, Some(r), ActionNone);
    var e1, e2, e3 := Update(wanted, outcomes, false, false), Exit(r, true), First(Report(id, r));
    StartOnly(o, s, id, config, r);
    assert Apply(o, Apply(o, s, e1), e2) == Fallen(s, id, entry, r);
    ThreeSteps(o, s, e1, e2, e3);
    events := [e1, e2, e3];
  }

  lemma StartOnly(o: Options, s: State, id: Id, config: Config, r: Instance)
    requires Idle(s, id, config) && r.id == id && r !in s.world.created
    ensures Enabled(s, Update(map[id := config], map[id := Created(r, Ready)], false, false))
    ensures Apply(o, s, Update(map[id := config], map[id := Created(r, Ready)], false, false)) ==
      s.(status := Running, servers := map[id := ServerEntry(id, config, Some(r), ActionNone)],
         world := s.world.(created := s.world.created + {r}))
  {
    StartOfOne(s.servers, id, config, r);
    var wanted, outcomes := map[id := config], map[id := Created(r, Ready)];
    assert UpdateResults(o, s.servers, wanted, outcomes, false) == outcomes;
    assert !AnyFailed(outcomes);
    UpdateOfOne(o, s, wanted, outcomes, r);
  }

  lemma UpdateOfOne(o: Options, s: State, wanted: map<Id, Config>, outcomes: Outcomes, r: Instance)
    requires Admits(s.status) && s.ctxLive && Stops(s.servers, wanted) == {} && s.world.stopped == {}
    requires UpdateResults(o, s.servers, wanted, outcomes, false) == outcomes && !AnyFailed(outcomes)
    requires CreatedBy(outcomes) == {r} && DiscardedBy(outcomes) == {}
    ensures ApplyUpdate(o, s, wanted, outcomes, false, false) ==
      s.(status := Running, servers := Settled(s.servers, wanted, outcomes),
         world := s.world.(created := s.world.created + {r}))
  {}

  lemma StartOfOne(servers: Servers, id: Id, config: Config, r: Instance)
    requires servers.Keys <= {id}
    requires id in servers ==> servers[id].runner == None && !Equal(servers[id].config, config)
    ensures
      var wanted, outcomes := map[id := config], map[id := Created(r, Ready)];
      && Starts(servers, wanted) == {id} && Stops(servers, wanted) == {}
      && Results(servers, wanted, outcomes, false) == outcomes
      && CreatedBy(outcomes) == {r} && DiscardedBy(outcomes) == {}
      && Settled(servers, wanted, outcomes) == map[id := ServerEntry(id, config, Some(r), ActionNone)]
  {
    var wanted, outcomes := map[id := config], map[id := Created(r, Ready)];
    assert id in wanted && id in outcomes && outcomes[id] == Created(r, Ready);
    assert Starts(servers, wanted) == {id};
  }

  /** The state in which the new server has just exited with an error. */
  function Fallen(s: State, id: Id, entry: ServerEntry, r: Instance): State {
    s.(status := Running, servers := map[id := entry],
       world := World(s.world.created + {r}, {}, s.world.exited + {r}),
       reports := {Report(id, r)})
  }

  /** The first crash of a record: restart number one is scheduled. */
  lemma FirstCrash(o: Options, s: State, id: Id, entry: ServerEntry, r: Instance, next: Config)
    requires o.Valid() && 1 <= o.maxRestarts && id !in s.tracker
    requires s.ctxLive && !s.down && s.world.exited == s.world.created
    requires entry == ServerEntry(id, entry.config, Some(r), ActionNone) && !Equal(entry.config, next)
    ensures var t := ApplyFirst(o, Fallen(s, id, entry, r), Report(id, r));
      && Idle(t, id, next) && t.world.created == s.world.created + {r}
      && id in t.tracker && t.tracker[id].failures == [s.now] && t.tracker[id].serial == s.nextSerial
      && t.tracker[id].gen == 1 && t.now == s.now && t.nextSerial == s.nextSerial + 1
      && id in t.newest && t.newest[id].id == id && t.newest[id].gen == 1 && t.newest[id].serial == s.nextSerial
      && t.restarts == s.restarts + {t.newest[id]} && id in t.servers
  {
    var u := Fallen(s, id, entry, r);
    assert WithFailure(RecordFor(u, id), u.now, o.restartWindow).failures == [s.now];
  }

  /** The second crash at the same time exceeds a limit of one restart. */
  lemma SecondCrash(o: Options, s: State, id: Id, entry: ServerEntry, r: Instance, next: Config)
    requires o.Valid() && o.maxRestarts == 1 && id in s.tracker && s.tracker[id].failures == [s.now]
    requires s.ctxLive && !s.down && s.world.exited == s.world.created
    requires entry == ServerEntry(id, entry.config, Some(r), ActionNone)
    ensures var t := ApplyFirst(o, Fallen(s, id, entry, r), Report(id, r));
      && Idle(t, id, next) && t.world.created == s.world.created + {r}
      && id !in t.tracker && t.now == s.now && t.nextSerial == s.nextSerial
      && t.newest == s.newest && t.restarts == s.restarts
  {
    var u := Fallen(s, id, entry, r);
    assert Recent([s.now], 1, s.now - o.restartWindow) == Recent([s.now], 0, s.now - o.restartWindow) + [s.now];
    assert |WithFailure(RecordFor(u, id), u.now, o.restartWindow).failures| == 2;
    assert map[id := entry] - {id} == map[];
  }

  function ConfigOn(addr: string): Config { Config(addr, 0, [], 0, 0, 0) }

  predicate SameGenerationNumber(b: Restart, c: Restart) { b.id == c.id && b.gen == c.gen }

  /** Two crashes with one restart allowed: the second escalates and deletes the record, while
  the supervisor of the first is still waiting. */
  lemma TwoCrashes(o: Options, id: Id, one: Config, two: Config) returns (events: seq<Event>, stale: Restart)
    requires o.Valid() && o.maxRestarts == 1 && !Equal(one, two) && !Equal(two, one)
    ensures IsRun(o, Initial(0), events)
    ensures var s := Reach(o, Initial(0), events);
      && Idle(s, id, two) && id !in s.tracker && s.world.created == {Instance(id, 0), Instance(id, 1)}
      && stale in s.restarts && stale.id == id && stale.gen == 1 && stale.serial < s.nextSerial
  {
    var a, b := Instance(id, 0), Instance(id, 1);
    var s0 := Initial(0);
    var es1 := ServeAndCrash(o, s0, id, one, a);
    FirstCrash(o, s0, id, ServerEntry(id, one, Some(a), ActionNone), a, two);
    var s1 := Reach(o, s0, es1);
    var es2 := ServeAndCrash(o, s1, id, two, b);
    SecondCrash(o, s1, id, ServerEntry(id, two, Some(b), ActionNone), b, two);
    RunThenRun(o, s0, es1, es2);
    events, stale := es1 + es2, s1.newest[id];
  }

  /** The third crash starts a new record at generation 1, and now the supervisor of the first
  crash passes the guards meant for the third. */
  lemma StaleSupervisorPasses(o: Options, id: Id) returns (events: seq<Event>, stale: Restart)
    requires o.Valid() && o.maxRestarts == 1
    ensures IsRun(o, Initial(0), events)
    ensures var s := Reach(o, Initial(0), events);
      && stale in s.restarts && MayRestart(s, stale)
      && id in s.newest && stale != s.newest[id] && s.newest[id] in s.restarts
      && SameGenerationNumber(stale, s.newest[id])
  {
    var one, two := ConfigOn("1"), ConfigOn("2");
    assert "1"[0] != "2"[0];
    var earlier, c := [], Instance(id, 2);
    earlier, stale := TwoCrashes(o, id, one, two);
    var s := Reach(o, Initial(0), earlier);
    var last := ServeAndCrash(o, s, id, two, c);
    FirstCrash(o, s, id, ServerEntry(id, two, Some(c), ActionNone), c, one);
    RunThenRun(o, Initial(0), earlier, last);
    events := earlier + last;
  }
}
