/** The cluster's collection of server entries. A collection is immutable: every
operation builds a fresh one and leaves the receiver alone. */
module Entries {
  import opened Wrappers
  import opened Names
  import opened HttpConfig

  type Id = string

  /** A server instance: the factory creates it for one id. `number` tells apart the
  instances created for the same id. */
  datatype Instance = Instance(id: Id, number: nat)

  datatype Action = ActionNone | ActionStart | ActionStop

  /** `runner` also stands for the cancel handle: both are set and cleared together. */
  datatype ServerEntry = ServerEntry(id: Id, config: Config, runner: Option<Instance>, action: Action)

  type Servers = map<Id, ServerEntry>

  function StopKey(id: Id): Id { id + ":stop" }

  predicate IsStopKey(key: Id) { |key| >= 5 && key[|key| - 5..] == ":stop" }

  function BaseOf(key: Id): Id
    requires IsStopKey(key)
  {
    key[..|key| - 5]
  }

  lemma StopKeyInverse(id: Id)
    ensures IsStopKey(StopKey(id)) && BaseOf(StopKey(id)) == id
  {}

  lemma BaseInverse(key: Id)
    requires IsStopKey(key)
    ensures StopKey(BaseOf(key)) == key
  {}

  // ---------------------------------------------------------------- plain operations

  function Wanted(configs: map<Id, Option<Config>>): map<Id, Config> {
    map id | id in configs && configs[id].Some? :: configs[id].value
  }

  function FreshEntry(id: Id, config: Config): ServerEntry {
    ServerEntry(id, config, None, ActionStart)
  }

  method NewEntries(configs: map<Id, Option<Config>>) returns (servers: Servers)
    ensures servers == map id | id in Wanted(configs) :: FreshEntry(id, Wanted(configs)[id])
  {
    servers := map[];
    var todo := configs.Keys;
    while todo != {}
      invariant todo <= configs.Keys
      invariant servers == map id | id in Wanted(configs) && id !in todo :: FreshEntry(id, Wanted(configs)[id])
      decreases todo
    {
      var id :| id in todo;
      todo := todo - {id};
      if configs[id].Some? {
        servers := servers[id := FreshEntry(id, configs[id].value)];
      }
    }
  }

  method RemoveEntry(servers: Servers, id: Id) returns (r: Servers)
    ensures r == servers - {id}
  {
    if id !in servers { return servers - {id}; }
    r := map[];
    var todo := servers.Keys;
    while todo != {}
      invariant todo <= servers.Keys
      invariant r == map k | k in servers && k !in todo && k != id :: servers[k]
      decreases todo
    {
      var k :| k in todo;
      todo := todo - {k};
      if k != id { r := r[k := servers[k]]; }
    }
  }

  function WithRuntime(servers: Servers, id: Id, runner: Option<Instance>): Servers
    requires id in servers
  {
    servers[id := servers[id].(runner := runner)]
  }

  /** setRuntime, and clearRuntime when `runner` is None; nil when there is no entry. */
  method ReplaceRuntime(servers: Servers, id: Id, runner: Option<Instance>) returns (r: Option<Servers>)
    ensures id !in servers ==> r == None
    ensures id in servers ==> r == Some(WithRuntime(servers, id, runner))
  {
    if id !in servers { return None; }
    var copy: Servers := map[];
    var todo := servers.Keys;
    while todo != {}
      invariant todo <= servers.Keys
      invariant copy == map k | k in servers && k !in todo :: WithRuntime(servers, id, runner)[k]
      decreases todo
    {
      var k :| k in todo;
      todo := todo - {k};
      copy := copy[k := if k == id then servers[k].(runner := runner) else servers[k]];
    }
    assert copy == WithRuntime(servers, id, runner);
    return Some(copy);
  }

  function WithAction(servers: Servers, action: Action): set<Id> {
    set id | id in servers && servers[id].action == action
  }

  method GetPendingActions(servers: Servers) returns (toStart: seq<Id>, toStop: seq<Id>)
    ensures Distinct(toStart) && SetOf(toStart) == WithAction(servers, ActionStart)
    ensures Distinct(toStop) && SetOf(toStop) == WithAction(servers, ActionStop)
  {
    toStart, toStop := [], [];
    var todo := servers.Keys;
    while todo != {}
      invariant todo <= servers.Keys
      invariant Distinct(toStart) && SetOf(toStart) == WithAction(servers, ActionStart) - todo
      invariant Distinct(toStop) && SetOf(toStop) == WithAction(servers, ActionStop) - todo
      decreases todo
    {
      var id :| id in todo;
      todo := todo - {id};
      if servers[id].action == ActionStart {
        AppendDistinct(toStart, id);
        toStart := toStart + [id];
      } else if servers[id].action == ActionStop {
        AppendDistinct(toStop, id);
        toStop := toStop + [id];
      }
    }
  }

  lemma AppendDistinct(ids: seq<Id>, id: Id)
    requires Distinct(ids) && id !in SetOf(ids)
    ensures Distinct(ids + [id]) && SetOf(ids + [id]) == SetOf(ids) + {id}
  {
    var longer := ids + [id];
    forall i, j | 0 <= i < j < |longer| ensures longer[i] != longer[j] {
      assert longer[i] in SetOf(ids);
    }
    forall x | x in SetOf(ids) ensures x in SetOf(longer) {
      var i :| 0 <= i < |ids| && ids[i] == x;
      assert longer[i] == x;
    }
    assert longer[|ids|] == id;
  }

  function Committed(servers: Servers): Servers {
    map id | id in servers && servers[id].action != ActionStop :: servers[id].(action := ActionNone)
  }

  method Commit(servers: Servers) returns (r: Servers)
    ensures r == Committed(servers)
  {
    r := map[];
    var todo := servers.Keys;
    while todo != {}
      invariant todo <= servers.Keys
      invariant r == map id | id in Committed(servers) && id !in todo :: Committed(servers)[id]
      decreases todo
    {
      var id :| id in todo;
      todo := todo - {id};
      if servers[id].action != ActionStop {
        r := r[id := servers[id].(action := ActionNone)];
      }
    }
  }

  // ---------------------------------------------------------------- reconciliation

  predicate Unchanged(before: Servers, wanted: map<Id, Config>, id: Id) {
    id in before && id in wanted && Equal(before[id].config, wanted[id])
  }

  /** A running server whose configuration changes: it is stopped under its stop key. */
  predicate Replaced(before: Servers, wanted: map<Id, Config>, id: Id) {
    id in before && id in wanted && !Equal(before[id].config, wanted[id]) && before[id].runner.Some?
  }

  /** A running server that is no longer wanted. */
  predicate Dropped(before: Servers, wanted: map<Id, Config>, id: Id) {
    id in before && id !in wanted && before[id].runner.Some?
  }

  /** The pairs that processExistingServer yields for one server. */
  function ProcessExistingServer(id: Id, entry: ServerEntry, wanted: Option<Config>): seq<(Id, ServerEntry)> {
    match wanted
    case None =>
      if entry.runner.Some? then [(id, entry.(action := ActionStop))] else []
    case Some(config) =>
      if Equal(entry.config, config) then [(id, entry.(action := ActionNone))]
      else if entry.runner.Some? then
        [(StopKey(id), entry.(action := ActionStop)), (id, FreshEntry(id, config))]
      else [(id, FreshEntry(id, config))]
  }

  /** What the pending collection is meant to hold under the server's own key. */
  function OwnEntry(before: Servers, wanted: map<Id, Config>, key: Id): Option<ServerEntry> {
    if Unchanged(before, wanted, key) then Some(before[key].(action := ActionNone))
    else if key in wanted then Some(FreshEntry(key, wanted[key]))
    else if Dropped(before, wanted, key) then Some(before[key].(action := ActionStop))
    else None
  }

  /** What it is meant to hold under a stop key. */
  function StopEntry(before: Servers, wanted: map<Id, Config>, key: Id): Option<ServerEntry> {
    if IsStopKey(key) && Replaced(before, wanted, BaseOf(key)) then Some(before[BaseOf(key)].(action := ActionStop))
    else None
  }

  function PendingAt(before: Servers, wanted: map<Id, Config>, key: Id): Option<ServerEntry> {
    var own := OwnEntry(before, wanted, key);
    if own.Some? then own else StopEntry(before, wanted, key)
  }

  function PendingKeys(before: Servers, wanted: map<Id, Config>): set<Id> {
    before.Keys + wanted.Keys + set id | id in before :: StopKey(id)
  }

  /** The intended pending collection. */
  function Pending(before: Servers, wanted: map<Id, Config>): Servers {
    map key | key in PendingKeys(before, wanted) && PendingAt(before, wanted, key).Some? ::
      PendingAt(before, wanted, key).value
  }

  lemma PendingLookup(before: Servers, wanted: map<Id, Config>, key: Id)
    ensures key in Pending(before, wanted) <==> PendingAt(before, wanted, key).Some?
  {
    if StopEntry(before, wanted, key).Some? {
      BaseInverse(key);
      assert key in PendingKeys(before, wanted);
    }
  }

  /** Two entries compete for one key: a server to be stopped under `id + ":stop"`, and
  a wanted or still running server whose id is that very string. */
  predicate Collides(before: Servers, wanted: map<Id, Config>) {
    exists id :: id in before && Replaced(before, wanted, id) && OwnEntry(before, wanted, StopKey(id)).Some?
  }

  /** The naming rule that rules collisions out: no id is another id plus ":stop". */
  predicate StopFree(ids: set<Id>) {
    forall id :: id in ids ==> StopKey(id) !in ids
  }

  lemma StopFreeNeverCollides(before: Servers, wanted: map<Id, Config>)
    requires StopFree(before.Keys + wanted.Keys)
    ensures !Collides(before, wanted)
  {}

  predicate SameRunner(e: ServerEntry, f: ServerEntry) { e.runner.Some? && e.runner == f.runner }

  /** Entries agree with their keys and no runner serves two entries. */
  ghost predicate WellKeyed(servers: Servers) {
    && (forall id :: id in servers ==> servers[id].id == id)
    && (forall i, j :: i in servers && j in servers && SameRunner(servers[i], servers[j]) ==> i == j)
  }

  predicate Carries(servers: Servers, key: Id, runner: Option<Instance>) {
    key in servers && servers[key].runner == runner
  }

  /** Nothing is lost: every wanted server has its entry, and every running server is
  still referred to by an entry. */
  ghost predicate Faithful(before: Servers, wanted: map<Id, Config>, pending: Servers) {
    && (forall id :: id in wanted ==> id in pending && OwnEntry(before, wanted, id) == Some(pending[id]))
    && (forall id :: id in before && before[id].runner.Some? ==>
          Carries(pending, id, before[id].runner) || Carries(pending, StopKey(id), before[id].runner))
  }

  /** Every entry is one that was meant to be under its key. */
  ghost predicate Meant(before: Servers, wanted: map<Id, Config>, pending: Servers) {
    forall key :: key in pending ==>
      || OwnEntry(before, wanted, key) == Some(pending[key])
      || StopEntry(before, wanted, key) == Some(pending[key])
  }

  /** A possible pending collection: every key that is meant to have an entry has one, and
  where two compete for a key it is one of the two. */
  ghost predicate MayBePending(before: Servers, wanted: map<Id, Config>, pending: Servers) {
    && Meant(before, wanted, pending)
    && forall key :: key in pending <==> PendingAt(before, wanted, key).Some?
  }

  /** Without a collision there is only one. */
  lemma PendingIsDetermined(before: Servers, wanted: map<Id, Config>, pending: Servers)
    requires MayBePending(before, wanted, pending) && !Collides(before, wanted)
    ensures pending == Pending(before, wanted)
  {
    forall key
      ensures key in pending <==> key in Pending(before, wanted)
      ensures key in pending ==> pending[key] == Pending(before, wanted)[key]
    {
      PendingLookup(before, wanted, key);
      if key in pending && StopEntry(before, wanted, key).Some? { BaseInverse(key); }
    }
  }

  /** buildPendingEntries. Go maps are iterated in no particular order: the loops pick any
  remaining key. Without a collision the outcome is nevertheless determined; with one it
  is any of the possible ones, and each of them loses a server. */
  method BuildPendingEntries(before: Servers, desired: Servers) returns (pending: Servers)
    requires WellKeyed(before)
    ensures var wanted := ConfigsOf(desired);
      && MayBePending(before, wanted, pending)
      && (!Collides(before, wanted) ==> pending == Pending(before, wanted))
      && (Faithful(before, wanted, pending) <==> !Collides(before, wanted))
  {
    var wanted: map<Id, Config> := map id | id in desired :: desired[id].config;
    var existing := ProcessExisting(before, wanted);
    pending := ProcessNew(before, wanted, existing);
    if Collides(before, wanted) {
      CollisionLosesAServer(before, wanted, pending);
    } else {
      PendingIsDetermined(before, wanted, pending);
      PendingIsFaithful(before, wanted);
    }
  }

  /** Every existing server outside `todo` has got the entries that it yields. */
  ghost predicate Covered(before: Servers, wanted: map<Id, Config>, todo: set<Id>, pending: Servers) {
    forall id :: id in before && id !in todo ==>
      && (OwnEntry(before, wanted, id).Some? ==> id in pending)
      && (Replaced(before, wanted, id) ==> StopKey(id) in pending)
  }

  method ProcessExisting(before: Servers, wanted: map<Id, Config>) returns (pending: Servers)
    ensures Meant(before, wanted, pending) && Covered(before, wanted, {}, pending)
  {
    pending := map[];
    var todo := before.Keys;
    while todo != {}
      invariant todo <= before.Keys
      invariant Meant(before, wanted, pending) && Covered(before, wanted, todo, pending)
      decreases todo
    {
      var id :| id in todo;
      var yielded := ProcessExistingServer(id, before[id], if id in wanted then Some(wanted[id]) else None);
      StopKeyInverse(id);
      if |yielded| > 0 { pending := pending[yielded[0].0 := yielded[0].1]; }
      if |yielded| > 1 { pending := pending[yielded[1].0 := yielded[1].1]; }
      todo := todo - {id};
    }
  }

  method ProcessNew(before: Servers, wanted: map<Id, Config>, existing: Servers) returns (pending: Servers)
    requires Meant(before, wanted, existing) && Covered(before, wanted, {}, existing)
    ensures MayBePending(before, wanted, pending)
  {
    pending := existing;
    var todo := wanted.Keys;
    while todo != {}
      invariant todo <= wanted.Keys
      invariant Meant(before, wanted, pending) && Covered(before, wanted, {}, pending)
      invariant forall id :: id in wanted && id !in todo ==> id in pending
      decreases todo
    {
      var id :| id in todo;
      if id !in before {
        pending := pending[id := FreshEntry(id, wanted[id])];
      }
      assert id in before ==> OwnEntry(before, wanted, id).Some?;
      todo := todo - {id};
    }
    forall key | PendingAt(before, wanted, key).Some? ensures key in pending {
      if OwnEntry(before, wanted, key).None? { BaseInverse(key); }
    }
  }

  function ConfigsOf(desired: Servers): map<Id, Config> {
    map id | id in desired :: desired[id].config
  }

  lemma PendingIsFaithful(before: Servers, wanted: map<Id, Config>)
    requires !Collides(before, wanted)
    ensures Faithful(before, wanted, Pending(before, wanted))
  {
    forall key ensures key in Pending(before, wanted) <==> PendingAt(before, wanted, key).Some? {
      PendingLookup(before, wanted, key);
    }
    forall id ensures IsStopKey(StopKey(id)) && BaseOf(StopKey(id)) == id { StopKeyInverse(id); }
  }

  lemma CollisionLosesAServer(before: Servers, wanted: map<Id, Config>, pending: Servers)
    requires WellKeyed(before) && Collides(before, wanted)
    requires Meant(before, wanted, pending)
    ensures !Faithful(before, wanted, pending)
  {
    var id :| id in before && Replaced(before, wanted, id) && OwnEntry(before, wanted, StopKey(id)).Some?;
    if Faithful(before, wanted, pending) {
      assert OwnEntry(before, wanted, id) == Some(pending[id]);
      assert Carries(pending, StopKey(id), before[id].runner);
      OneKeyOneEntry(before, wanted, pending, id);
      assert false;
    }
  }

  lemma OneKeyOneEntry(before: Servers, wanted: map<Id, Config>, pending: Servers, id: Id)
    requires WellKeyed(before) && Replaced(before, wanted, id)
    requires OwnEntry(before, wanted, StopKey(id)).Some?
    requires Meant(before, wanted, pending) && Carries(pending, StopKey(id), before[id].runner)
    ensures !Faithful(before, wanted, pending)
  {
    var key := StopKey(id);
    if key in wanted {
      assert OwnEntry(before, wanted, key) != Some(pending[key]);
    } else {
      StopKeyInverse(key);
      assert !Carries(pending, key, before[key].runner);
      assert !Carries(pending, StopKey(key), before[key].runner);
    }
  }
}
