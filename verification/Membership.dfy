/** The composite runner's configuration, and the comparison that decides between reloading
the children in place and replacing them. */
module Membership {
  import opened Names

  /** One child: its String() name and the settings handed to it on reload. */
  datatype Entry = Entry(name: string, settings: int)

  type Config = seq<Entry>

  function NamesIn(config: Config): seq<string> {
    seq(|config|, i requires 0 <= i < |config| => config[i].name)
  }

  predicate Changed(before: Config, after: Config) {
    |before| != |after| || exists i :: 0 <= i < |after| && after[i].name !in NamesIn(before)
  }

  /** hasMembershipChanged: only one of the two inclusions is tested. */
  method HasMembershipChanged(before: Config, after: Config) returns (changed: bool)
    ensures changed == Changed(before, after)
    ensures !changed <==> |before| == |after| && SetOf(NamesIn(after)) <= SetOf(NamesIn(before))
  {
    ChangedInGeneral(before, after);
    if |before| != |after| { return true; }
    var known: map<string, bool> := map[];
    for i := 0 to |before|
      invariant forall name :: name in known <==> name in NamesIn(before)[..i]
    {
      known := known[before[i].name := true];
      assert NamesIn(before)[..i + 1] == NamesIn(before)[..i] + [before[i].name];
    }
    assert NamesIn(before)[..|before|] == NamesIn(before);
    for i := 0 to |after|
      invariant forall j :: 0 <= j < i ==> after[j].name in NamesIn(before)
    {
      if after[i].name !in known { return true; }
    }
    return false;
  }

  lemma SameNamesListed(before: Config, after: Config)
    ensures (forall i :: 0 <= i < |after| ==> after[i].name in NamesIn(before))
      <==> SetOf(NamesIn(after)) <= SetOf(NamesIn(before))
  {
    if SetOf(NamesIn(after)) <= SetOf(NamesIn(before)) {
      forall i | 0 <= i < |after| ensures after[i].name in NamesIn(before) {
        assert NamesIn(after)[i] in SetOf(NamesIn(before));
      }
    }
  }

  /** What the test decides for all lists, repeated names included: as many entries, and no
  new name that the old list lacks. */
  lemma ChangedInGeneral(before: Config, after: Config)
    ensures !Changed(before, after) <==>
      |before| == |after| && SetOf(NamesIn(after)) <= SetOf(NamesIn(before))
  {
    SameNamesListed(before, after);
  }

  /** Against a new list of distinct names the test is exact: membership is unchanged
  precisely when the two lists are permutations of each other by name. */
  lemma UnchangedExactlyWhenPermuted(before: Config, after: Config)
    requires Distinct(NamesIn(after))
    ensures !Changed(before, after) <==> multiset(NamesIn(before)) == multiset(NamesIn(after))
  {
    SameNamesListed(before, after);
    if !Changed(before, after) {
      InclusionBothWays(NamesIn(after), NamesIn(before));
      DistinctMultisets(NamesIn(before), NamesIn(after));
    }
    if multiset(NamesIn(before)) == multiset(NamesIn(after)) {
      SameMultisetSameSet(NamesIn(before), NamesIn(after));
    }
  }

  /** As a comparison of sets: a repeated old name is the one case in which equal sets are
  reported as a change. */
  lemma ChangedExactlyWhenSetsDiffer(before: Config, after: Config)
    requires Distinct(NamesIn(after))
    ensures Changed(before, after)
      <==> SetOf(NamesIn(before)) != SetOf(NamesIn(after)) || !Distinct(NamesIn(before))
  {
    SameNamesListed(before, after);
    SetSize(NamesIn(before));
    SetSize(NamesIn(after));
    if !Changed(before, after) { InclusionBothWays(NamesIn(after), NamesIn(before)); }
  }

  /** The distinctness condition cannot be dropped: for any new list that repeats a name
  there is an old list with a name the new one lacks, and no change is reported. */
  lemma RepeatedNameMisleads(after: Config) returns (before: Config)
    requires !Distinct(NamesIn(after))
    ensures !Changed(before, after)
    ensures SetOf(NamesIn(before)) != SetOf(NamesIn(after))
  {
    var i, j :| 0 <= i < j < |after| && NamesIn(after)[i] == NamesIn(after)[j];
    var fresh' := FreshName(NamesIn(after));
    before := after[j := Entry(fresh', 0)];
    forall k | 0 <= k < |after| ensures after[k].name in NamesIn(before) {
      assert NamesIn(before)[if k == j then i else k] == after[k].name;
    }
    assert NamesIn(before)[j] == fresh';
    assert fresh' in SetOf(NamesIn(before));
    assert fresh' !in SetOf(NamesIn(after));
  }
}
