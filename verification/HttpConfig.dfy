/** Configuration of one HTTP server and the comparison that decides whether a
server has to be restarted. */
module HttpConfig {
  import opened Names

  /** A route is identified by its name and its path; handler functions are not
  comparable and take no part in the comparison. */
  datatype Route = Route(name: string, path: string)

  type Routes = seq<Route>

  datatype Config = Config(
    listenAddr: string,
    drainTimeout: int,
    routes: Routes,
    readTimeout: int,
    writeTimeout: int,
    idleTimeout: int)

  function NamesOf(routes: Routes): seq<string> {
    seq(|routes|, i requires 0 <= i < |routes| => routes[i].name)
  }

  function PathsOf(routes: Routes): seq<string> {
    seq(|routes|, i requires 0 <= i < |routes| => routes[i].path)
  }

  /** The last route registered under each path. */
  function PathMap(routes: Routes): map<string, Route> {
    if routes == [] then map[]
    else
      var front, last := routes[..|routes| - 1], routes[|routes| - 1];
      PathMap(front)[last.path := last]
  }

  lemma {:induction false} PathMapEntries(routes: Routes, path: string)
    ensures path in PathMap(routes) <==> path in PathsOf(routes)
    ensures path in PathMap(routes) ==>
      PathMap(routes)[path] in routes && PathMap(routes)[path].path == path
  {
    if routes != [] {
      var front, last := routes[..|routes| - 1], routes[|routes| - 1];
      PathMapEntries(front, path);
      assert PathsOf(routes) == PathsOf(front) + [last.path];
    }
  }

  predicate Listed(routeMap: map<string, Route>, route: Route) {
    route.path in routeMap && routeMap[route.path] == route
  }

  predicate RoutesEqual(routes: Routes, other: Routes) {
    && |routes| == |other|
    && Sort(NamesOf(routes)) == Sort(NamesOf(other))
    && forall i :: 0 <= i < |other| ==>
         Listed(PathMap(routes), other[i])
  }

  method CollectNames(routes: Routes) returns (names: seq<string>)
    ensures names == NamesOf(routes)
  {
    names := [];
    for i := 0 to |routes|
      invariant names == NamesOf(routes)[..i]
    {
      names := names + [routes[i].name];
    }
  }

  method IndexByPath(routes: Routes) returns (routeMap: map<string, Route>)
    ensures routeMap == PathMap(routes)
  {
    routeMap := map[];
    for i := 0 to |routes|
      invariant routeMap == PathMap(routes[..i])
    {
      assert routes[..i + 1][..i] == routes[..i];
      routeMap := routeMap[routes[i].path := routes[i]];
    }
    assert routes[..|routes|] == routes;
  }

  /** Routes.Equal: sorted names first, then a lookup by path. */
  method CompareRoutes(routes: Routes, other: Routes) returns (same: bool)
    ensures same == RoutesEqual(routes, other)
    ensures same <==>
      && |routes| == |other|
      && multiset(NamesOf(routes)) == multiset(NamesOf(other))
      && forall i :: 0 <= i < |other| ==> LastOfItsPath(routes, other[i])
  {
    EqualInGeneral(routes, other);
    if |routes| != |other| { return false; }
    var oldNames := CollectNames(routes);
    var newNames := CollectNames(other);
    if Sort(oldNames) != Sort(newNames) { return false; }
    var routeMap := IndexByPath(routes);
    for i := 0 to |other|
      invariant forall j :: 0 <= j < i ==> Listed(routeMap, other[j])
    {
      if !Listed(routeMap, other[i]) { return false; }
    }
    return true;
  }

  // ---------------------------------------------------------------- what the comparison means

  lemma DistinctPathsDistinctRoutes(routes: Routes)
    requires Distinct(PathsOf(routes))
    ensures Distinct(routes)
  {
    forall i, j | 0 <= i < j < |routes| ensures routes[i] != routes[j] {
      assert PathsOf(routes)[i] != PathsOf(routes)[j];
    }
  }

  lemma RemoveOne(routes: Routes, j: nat) returns (rest: Routes)
    requires j < |routes|
    ensures |rest| == |routes| - 1
    ensures multiset(rest) == multiset(routes) - multiset{routes[j]}
    ensures multiset(NamesOf(routes)) == multiset(NamesOf(rest)) + multiset{routes[j].name}
  {
    var before, after := routes[..j], routes[j + 1..];
    rest := before + after;
    assert routes == before + [routes[j]] + after;
    assert NamesOf(routes) == NamesOf(before) + [routes[j].name] + NamesOf(after);
    assert NamesOf(rest) == NamesOf(before) + NamesOf(after);
  }

  lemma {:induction false} PermutedNames(routes: Routes, other: Routes)
    requires multiset(routes) == multiset(other)
    ensures multiset(NamesOf(routes)) == multiset(NamesOf(other))
    decreases |other|
  {
    assert |multiset(routes)| == |routes| && |multiset(other)| == |other|;
    if other != [] {
      assert other[0] in multiset(routes);
      var j :| 0 <= j < |routes| && routes[j] == other[0];
      var routes' := RemoveOne(routes, j);
      var other' := RemoveOne(other, 0);
      PermutedNames(routes', other');
    }
  }

  lemma PathsInBoth(routes: Routes, other: Routes)
    requires SetOf(other) <= SetOf(routes)
    ensures SetOf(PathsOf(other)) <= SetOf(PathsOf(routes))
  {
    forall p | p in SetOf(PathsOf(other)) ensures p in SetOf(PathsOf(routes)) {
      var i :| 0 <= i < |other| && PathsOf(other)[i] == p;
      assert other[i] in SetOf(other);
      var j :| 0 <= j < |routes| && routes[j] == other[i];
      assert PathsOf(routes)[j] == p;
    }
  }

  /** The last route registered under the path of `route` is `route` itself. */
  ghost predicate LastOfItsPath(routes: Routes, route: Route) {
    exists j :: IsLastOf(routes, route, j)
  }

  predicate IsLastOf(routes: Routes, route: Route, j: int) {
    0 <= j < |routes| && routes[j] == route && forall k :: j < k < |routes| ==> routes[k].path != route.path
  }

  lemma {:induction false} ListedMeansLast(routes: Routes, route: Route)
    ensures Listed(PathMap(routes), route) <==> LastOfItsPath(routes, route)
  {
    if routes != [] {
      var front, last := routes[..|routes| - 1], routes[|routes| - 1];
      ListedMeansLast(front, route);
      if last.path != route.path {
        if LastOfItsPath(front, route) {
          var j :| IsLastOf(front, route, j);
          assert IsLastOf(routes, route, j);
        }
        if LastOfItsPath(routes, route) {
          var j :| IsLastOf(routes, route, j);
          assert IsLastOf(front, route, j);
        }
      } else {
        assert last == route ==> IsLastOf(routes, route, |routes| - 1);
      }
    }
  }

  /** What the comparison decides for all lists, repeated paths included: as many routes, the
  same names, and every new route is the last old one under its path. */
  lemma EqualInGeneral(routes: Routes, other: Routes)
    ensures RoutesEqual(routes, other) <==>
      && |routes| == |other|
      && multiset(NamesOf(routes)) == multiset(NamesOf(other))
      && forall i :: 0 <= i < |other| ==> LastOfItsPath(routes, other[i])
  {
    SortEqualExactlyWhenSameNames(NamesOf(routes), NamesOf(other));
    forall i | 0 <= i < |other| ensures Listed(PathMap(routes), other[i]) <==> LastOfItsPath(routes, other[i]) {
      ListedMeansLast(routes, other[i]);
    }
  }

  /** For a new route list without repeated paths the comparison is exactly "the same
  routes in some order". */
  lemma EqualIsPermutation(routes: Routes, other: Routes)
    requires Distinct(PathsOf(other))
    ensures RoutesEqual(routes, other) <==> multiset(routes) == multiset(other)
  {
    DistinctPathsDistinctRoutes(other);
    if RoutesEqual(routes, other) {
      forall i | 0 <= i < |other| ensures other[i] in SetOf(routes) {
        PathMapEntries(routes, other[i].path);
        assert Listed(PathMap(routes), other[i]);
      }
      assert SetOf(other) <= SetOf(routes);
      InclusionBothWays(other, routes);
      DistinctMultisets(other, routes);
    }
    if multiset(routes) == multiset(other) {
      PermutationIsEqual(routes, other);
    }
  }

  lemma PermutationIsEqual(routes: Routes, other: Routes)
    requires Distinct(PathsOf(other))
    requires multiset(routes) == multiset(other)
    ensures RoutesEqual(routes, other)
  {
    SameMultisetSameSet(routes, other);
    PermutedNames(routes, other);
    SortEqualExactlyWhenSameNames(NamesOf(routes), NamesOf(other));
    PathsInBoth(routes, other);
    InclusionBothWays(PathsOf(other), PathsOf(routes));
    forall i | 0 <= i < |other| ensures Listed(PathMap(routes), other[i]) {
      assert other[i] in SetOf(routes);
      FoundByPath(routes, other[i]);
    }
  }

  lemma FoundByPath(routes: Routes, route: Route)
    requires Distinct(PathsOf(routes))
    requires route in routes
    ensures Listed(PathMap(routes), route)
  {
    var j :| 0 <= j < |routes| && routes[j] == route;
    assert PathsOf(routes)[j] == route.path;
    PathMapEntries(routes, route.path);
    var k :| 0 <= k < |routes| && routes[k] == PathMap(routes)[route.path];
    assert PathsOf(routes)[k] == route.path;
  }

  /** The distinctness condition cannot be dropped: against any list that repeats a
  path the comparison gives a wrong answer for some list. */
  lemma RepeatedPathMisleads(other: Routes) returns (routes: Routes)
    requires !Distinct(PathsOf(other))
    ensures RoutesEqual(routes, other) != (multiset(routes) == multiset(other))
  {
    if i, j :| 0 <= i < j < |other| && other[i].path == other[j].path && other[i] != other[j] {
      routes := other;
      assert !Listed(PathMap(other), other[i]) || !Listed(PathMap(other), other[j]);
    } else {
      var i, j :| 0 <= i < j < |other| && PathsOf(other)[i] == PathsOf(other)[j];
      routes := HiddenReplacement(other, i, j);
    }
  }

  /** Two copies of one route: replacing one of them under an unused path goes unnoticed. */
  lemma HiddenReplacement(other: Routes, i: nat, j: nat) returns (routes: Routes)
    requires i < j < |other| && other[i].path == other[j].path
    requires forall i, j :: 0 <= i < j < |other| && other[i].path == other[j].path ==> other[i] == other[j]
    ensures RoutesEqual(routes, other) && multiset(routes) != multiset(other)
  {
    var unused := FreshName(PathsOf(other));
    var altered := Route(other[j].name, unused);
    routes := other[j := altered];
    assert NamesOf(routes) == NamesOf(other);
    forall k | 0 <= k < |other| ensures Listed(PathMap(routes), other[k]) {
      assert PathsOf(other)[k] == other[k].path;
      FoundDespiteReplacement(other, i, j, unused, k);
    }
    assert altered in multiset(routes) by { assert routes[j] == altered; }
    assert altered !in multiset(other) by {
      forall k | 0 <= k < |other| ensures other[k] != altered {
        assert |PathsOf(other)[k]| < |unused|;
      }
    }
  }

  lemma FoundDespiteReplacement(other: Routes, i: nat, j: nat, unused: string, k: nat)
    requires i < j < |other| && other[i] == other[j] && k < |other|
    requires forall i, j :: 0 <= i < j < |other| && other[i].path == other[j].path ==> other[i] == other[j]
    requires |other[k].path| < |unused|
    ensures Listed(PathMap(other[j := Route(other[j].name, unused)]), other[k])
  {
    var routes := other[j := Route(other[j].name, unused)];
    assert PathsOf(routes)[if k == j then i else k] == other[k].path;
    PathMapEntries(routes, other[k].path);
    var m :| 0 <= m < |routes| && routes[m] == PathMap(routes)[other[k].path];
    assert m != j && routes[m] == other[m];
  }

  // ---------------------------------------------------------------- Config.Equal

  predicate Equal(config: Config, other: Config) {
    && config.listenAddr == other.listenAddr
    && config.drainTimeout == other.drainTimeout
    && RoutesEqual(config.routes, other.routes)
    && config.readTimeout == other.readTimeout
    && config.writeTimeout == other.writeTimeout
    && config.idleTimeout == other.idleTimeout
  }

  /** What NewConfig guarantees about the routes of every configuration it returns. */
  predicate Validated(config: Config) {
    Distinct(PathsOf(config.routes))
  }

  predicate SameUpToOrder(config: Config, other: Config) {
    config.(routes := other.routes) == other && multiset(config.routes) == multiset(other.routes)
  }

  /** Against a validated configuration, equal means identical but for the order of routes. */
  lemma EqualMeansSameUpToOrder(config: Config, other: Config)
    requires Validated(other)
    ensures Equal(config, other) <==> SameUpToOrder(config, other)
  {
    EqualIsPermutation(config.routes, other.routes);
  }

  /** On validated configurations the comparison is an equivalence relation. */
  lemma EqualIsEquivalence(a: Config, b: Config, c: Config)
    requires Validated(a) && Validated(b) && Validated(c)
    ensures Equal(a, a)
    ensures Equal(a, b) <==> Equal(b, a)
    ensures Equal(a, b) && Equal(b, c) ==> Equal(a, c)
  {
    EqualIsPermutation(a.routes, a.routes);
    EqualIsPermutation(a.routes, b.routes);
    EqualIsPermutation(b.routes, a.routes);
    EqualIsPermutation(b.routes, c.routes);
    EqualIsPermutation(a.routes, c.routes);
  }

  /** The duplicate-path loop of NewConfig: every repeated path is reported, each
  once, so the configuration is accepted only when no path repeats. */
  method RepeatedPaths(routes: Routes) returns (repeated: seq<string>)
    ensures repeated == [] <==> Distinct(PathsOf(routes))
    ensures Distinct(repeated)
    ensures forall p :: p in repeated <==> multiset(PathsOf(routes))[p] >= 2
  {
    var paths := PathsOf(routes);
    var seen: map<string, nat> := map[];
    repeated := [];
    for i := 0 to |routes|
      invariant forall p :: p in seen <==> p in paths[..i]
      invariant forall p :: p in seen ==> seen[p] == multiset(paths[..i])[p]
      invariant Distinct(repeated)
      invariant forall p :: p in repeated <==> multiset(paths[..i])[p] >= 2
    {
      var p := routes[i].path;
      assert paths[..i + 1] == paths[..i] + [p];
      var count := 1 + if p in seen then seen[p] else 0;
      assert p !in seen ==> multiset(paths[..i])[p] == 0 by { DistinctCount(paths[..i], p); }
      seen := seen[p := count];
      if count == 2 {
        repeated := repeated + [p];
      }
    }
    assert paths[..|routes|] == paths;
    NoRepeatExactlyWhenDistinct(paths);
    assert repeated != [] ==> repeated[0] in repeated;
  }

  lemma {:induction false} NoRepeatExactlyWhenDistinct(names: seq<string>)
    ensures Distinct(names) <==> forall p :: multiset(names)[p] < 2
  {
    if Distinct(names) {
      forall p ensures multiset(names)[p] < 2 { DistinctCount(names, p); }
    } else {
      var i, j :| 0 <= i < j < |names| && names[i] == names[j];
      var x := names[j];
      assert names == names[..j] + [x] + names[j + 1..];
      assert names[..j][i] == x;
      DistinctCount(names[..j], x);
      assert multiset(names)[x] >= 2;
    }
  }
}
