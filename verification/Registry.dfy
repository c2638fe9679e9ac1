/**
 The resource registry (`pkg/oauthserver/registry.go`): building one from the configuration
 and comparing a given one with it.
 */
module Registry {
  import opened Scopes
  import opened TextOrder
  import opened Model
  import opened Config

  type Resources = map<ResourceID, Resource>

  function ResourceOf(config: ResourceConfig, supported: ScopeSet, urls: Urls): Option<Resource> {
    var id := TrimSpace(config.id);
    var scopes := FromValues(config.supportedScopes);
    if !urls.absolute(id) then None
    else if scopes.None? || !IsSubsetOf(scopes.value, supported) then None
    else if config.displayName == "" then None
    else Some(Resource(id, config.displayName, scopes.value))
  }

  lemma ResourceHasID(config: ResourceConfig, supported: ScopeSet, urls: Urls)
    requires ResourceOf(config, supported, urls).Some?
    ensures ResourceOf(config, supported, urls).value.id == TrimSpace(config.id)
  {
  }

  /** Every entry is valid and no two have the same ID. */
  predicate Buildable(configs: seq<ResourceConfig>, supported: ScopeSet, urls: Urls) {
    && (forall i | 0 <= i < |configs| :: ResourceOf(configs[i], supported, urls).Some?)
    && DistinctIDs(configs)
  }

  /** The map that a list of valid entries fills. */
  ghost function Filled(configs: seq<ResourceConfig>, supported: ScopeSet, urls: Urls): Resources
    requires forall i | 0 <= i < |configs| :: ResourceOf(configs[i], supported, urls).Some?
  {
    if configs == [] then map[]
    else
      var n := |configs| - 1;
      Filled(configs[..n], supported, urls)[TrimSpace(configs[n].id) := ResourceOf(configs[n], supported, urls).value]
  }

  method NewStaticResourceRegistry(configs: seq<ResourceConfig>, supported: ScopeSet, urls: Urls)
    returns (r: Option<Resources>)
    ensures r.Some? <==> Buildable(configs, supported, urls)
    ensures r.Some? ==> r.value == Filled(configs, supported, urls)
  {
    hide TrimSpace, ResourceOf, Config.IDs;
    NoIDs();
    hide DistinctIDs;
    var resources: Resources := map[];
    for i := 0 to |configs|
      invariant forall k | 0 <= k < i :: ResourceOf(configs[k], supported, urls).Some?
      invariant DistinctIDs(configs[..i]) && resources.Keys == Config.IDs(configs[..i])
      invariant resources == Filled(configs[..i], supported, urls)
    {
      var id := TrimSpace(configs[i].id);
      var resource := ResourceOf(configs[i], supported, urls);
      DistinctStep(configs, i);
      if resource.None? || id in resources {
        return None;
      }
      assert configs[..i + 1][..i] == configs[..i];
      resources := resources[id := resource.value];
    }
    assert configs[..|configs|] == configs;
    r := Some(resources);
  }

  lemma BuildableStep(configs: seq<ResourceConfig>, supported: ScopeSet, urls: Urls)
    requires Buildable(configs, supported, urls) && configs != []
    ensures var n := |configs| - 1;
            && Buildable(configs[..n], supported, urls)
            && ResourceOf(configs[n], supported, urls).Some?
            && ResourceOf(configs[n], supported, urls).value.id == TrimSpace(configs[n].id)
            && TrimSpace(configs[n].id) !in Config.IDs(configs[..n])
            && Config.IDs(configs) == Config.IDs(configs[..n]) + {TrimSpace(configs[n].id)}
  {
    var n := |configs| - 1;
    hide TrimSpace, ResourceOf, Config.IDs;
    DistinctStep(configs, n);
    assert configs[..n + 1] == configs;
    hide DistinctIDs;
    ResourceHasID(configs[n], supported, urls);
  }

  lemma OneMoreKey(m: Resources, id: ResourceID, r: Resource)
    requires id !in m && r.id == id && WellKeyed(m)
    ensures m[id := r].Keys == m.Keys + {id} && |m[id := r]| == |m| + 1 && WellKeyed(m[id := r])
  {
  }

  lemma {:induction false} FilledKeys(configs: seq<ResourceConfig>, supported: ScopeSet, urls: Urls)
    requires Buildable(configs, supported, urls)
    ensures var resources := Filled(configs, supported, urls);
            && resources.Keys == Config.IDs(configs) && WellKeyed(resources) && |resources| == |configs|
  {
    hide TrimSpace, ResourceOf, Config.IDs, DistinctIDs;
    if configs == [] {
      NoIDs();
    } else {
      var n := |configs| - 1;
      BuildableStep(configs, supported, urls);
      FilledKeys(configs[..n], supported, urls);
      OneMoreKey(Filled(configs[..n], supported, urls), TrimSpace(configs[n].id),
                 ResourceOf(configs[n], supported, urls).value);
    }
  }

  lemma {:induction false} FilledValue(configs: seq<ResourceConfig>, supported: ScopeSet, urls: Urls, i: nat)
    requires Buildable(configs, supported, urls) && i < |configs|
    ensures TrimSpace(configs[i].id) in Filled(configs, supported, urls)
    ensures Filled(configs, supported, urls)[TrimSpace(configs[i].id)] == ResourceOf(configs[i], supported, urls).value
  {
    hide TrimSpace, ResourceOf, Config.IDs, Buildable;
    var n := |configs| - 1;
    BuildableStep(configs, supported, urls);
    if i < n {
      FilledValue(configs[..n], supported, urls, i);
      FilledKeys(configs[..n], supported, urls);
      assert configs[..n][i] == configs[i];
    }
  }

  /** The built registry holds every configured resource under its own ID, and nothing else. */
  lemma FilledContents(configs: seq<ResourceConfig>, supported: ScopeSet, urls: Urls)
    requires Buildable(configs, supported, urls)
    ensures var resources := Filled(configs, supported, urls);
            && resources.Keys == Config.IDs(configs) && WellKeyed(resources) && |resources| == |configs|
            && forall i | 0 <= i < |configs| ::
                 && TrimSpace(configs[i].id) in resources
                 && resources[TrimSpace(configs[i].id)] == ResourceOf(configs[i], supported, urls).value
  {
    hide TrimSpace, ResourceOf, Config.IDs, DistinctIDs;
    FilledKeys(configs, supported, urls);
    forall i | 0 <= i < |configs|
      ensures TrimSpace(configs[i].id) in Filled(configs, supported, urls)
      ensures Filled(configs, supported, urls)[TrimSpace(configs[i].id)]
              == ResourceOf(configs[i], supported, urls).value
    {
      FilledValue(configs, supported, urls, i);
    }
  }

  predicate WellKeyed(resources: Resources) {
    forall id | id in resources :: resources[id].id == id
  }

  /** What `validateResourceRegistry` demands of the list it is given. */
  predicate Matches(actual: seq<Resource>, expected: Resources) {
    && |actual| == |expected|
    && forall i | 0 <= i < |actual| :: actual[i].id in expected && expected[actual[i].id] == actual[i]
  }

  method ValidateResourceRegistry(configs: seq<ResourceConfig>, supported: ScopeSet, urls: Urls, actual: seq<Resource>)
    returns (ok: bool)
    ensures ok <==> Buildable(configs, supported, urls) && Matches(actual, Filled(configs, supported, urls))
  {
    hide TrimSpace, FromValues, IsSubsetOf, ResourceOf, Text, DistinctIDs;
    var built := NewStaticResourceRegistry(configs, supported, urls);
    if built.None? {
      return false;
    }
    FilledContents(configs, supported, urls);
    hide Filled;
    if |actual| != |built.value| {
      return false;
    }
    for i := 0 to |actual|
      invariant forall k | 0 <= k < i :: actual[k].id in built.value && built.value[actual[k].id] == actual[k]
    {
      var resource := actual[i];
      if resource.id !in built.value {
        return false;
      }
      var want := built.value[resource.id];
      TextInjective(want.supportedScopes, resource.supportedScopes);
      if want.displayName != resource.displayName || Text(want.supportedScopes) != Text(resource.supportedScopes) {
        return false;
      }
    }
    ok := true;
  }

  predicate DistinctResources(actual: seq<Resource>) {
    forall i, j | 0 <= i < j < |actual| :: actual[i].id != actual[j].id
  }

  predicate Covers(actual: seq<Resource>, expected: Resources) {
    forall id | id in expected :: exists i :: 0 <= i < |actual| && actual[i].id == id
  }

  ghost function IDs(actual: seq<Resource>): set<ResourceID> {
    set i | 0 <= i < |actual| :: actual[i].id
  }

  lemma {:induction false} CountIDs(actual: seq<Resource>)
    ensures |IDs(actual)| <= |actual|
    ensures |IDs(actual)| == |actual| <==> DistinctResources(actual)
  {
    if actual != [] {
      var last := actual[|actual| - 1].id;
      var rest := actual[..|actual| - 1];
      CountIDs(rest);
      IDsOfLast(actual);
      DistinctLast(actual);
      hide IDs, DistinctResources;
    }
  }

  lemma IDsOfLast(actual: seq<Resource>)
    requires actual != []
    ensures IDs(actual) == IDs(actual[..|actual| - 1]) + {actual[|actual| - 1].id}
  {
  }

  lemma DistinctLast(actual: seq<Resource>)
    requires actual != []
    ensures var rest := actual[..|actual| - 1];
            DistinctResources(actual) <==> DistinctResources(rest) && actual[|actual| - 1].id !in IDs(rest)
  {
    var rest := actual[..|actual| - 1];
    if actual[|actual| - 1].id in IDs(rest) {
      var i :| 0 <= i < |rest| && rest[i].id == actual[|actual| - 1].id;
      assert actual[i].id == actual[|actual| - 1].id;
    } else {
      assert forall i | 0 <= i < |rest| :: rest[i].id in IDs(rest);
    }
    assert forall i | 0 <= i < |rest| :: rest[i] == actual[i];
  }

  /**
   A list that passes is the configured registry, every resource present, exactly when it
   repeats no ID; the check itself does not look for repetitions.
   */
  lemma MatchingListIsComplete(actual: seq<Resource>, expected: Resources)
    requires Matches(actual, expected)
    ensures Covers(actual, expected) <==> DistinctResources(actual)
  {
    CountIDs(actual);
    assert |expected| == |expected.Keys|;
    assert forall i | 0 <= i < |actual| :: actual[i].id in IDs(actual);
    assert IDs(actual) <= expected.Keys;
    if DistinctResources(actual) {
      assert |expected.Keys - IDs(actual)| == 0;
      assert forall id | id in expected :: id in IDs(actual);
    }
    if Covers(actual, expected) {
      assert IDs(actual) == expected.Keys;
    }
  }

  /** The same resource listed twice passes in place of the missing one. */
  lemma RepeatedResourcePasses(a: Resource, b: Resource)
    requires a.id != b.id
    ensures Matches([a, a], map[a.id := a, b.id := b]) && !Covers([a, a], map[a.id := a, b.id := b])
  {
    var expected := map[a.id := a, b.id := b];
    assert expected.Keys == {a.id, b.id};
    assert |expected| == |expected.Keys|;
    assert b.id in expected;
  }

  /** `ListResources`: append in any order, then sort by ID. */
  method ListResources(resources: Resources) returns (r: seq<Resource>)
    requires WellKeyed(resources)
    ensures Matches(r, resources) && DistinctResources(r)
    ensures forall i, j | 0 <= i < j < |r| :: Less(r[i].id, r[j].id)
  {
    r := [];
    var todo := resources.Keys;
    while todo != {}
      invariant todo <= resources.Keys && |r| == |resources.Keys| - |todo|
      invariant forall i | 0 <= i < |r| :: r[i].id in resources.Keys - todo && resources[r[i].id] == r[i]
      invariant forall i, j | 0 <= i < j < |r| :: Less(r[i].id, r[j].id)
      decreases todo
    {
      var id :| id in todo;
      todo := todo - {id};
      r := InsertByID(r, resources[id]);
    }
    assert |resources| == |resources.Keys|;
    forall i, j | 0 <= i < j < |r|
      ensures r[i].id != r[j].id
    {
      Irreflexive(r[i].id);
    }
  }

  /** One step of sorting by ID. */
  function InsertByID(s: seq<Resource>, x: Resource): (r: seq<Resource>)
    requires forall i, j | 0 <= i < j < |s| :: Less(s[i].id, s[j].id)
    requires forall i | 0 <= i < |s| :: s[i].id != x.id
    ensures |r| == |s| + 1
    ensures forall i | 0 <= i < |r| :: r[i] == x || r[i] in s
    ensures forall i, j | 0 <= i < j < |r| :: Less(r[i].id, r[j].id)
  {
    if s == [] then [x]
    else if Less(x.id, s[0].id) then
      assert forall i | 0 < i < |s| :: Less(x.id, s[i].id) by {
        forall i | 0 < i < |s|
          ensures Less(x.id, s[i].id)
        {
          Transitive(x.id, s[0].id, s[i].id);
        }
      }
      [x] + s
    else
      Total(x.id, s[0].id);
      [s[0]] + InsertByID(s[1..], x)
  }
}
