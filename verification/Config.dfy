/**
 Configuration checks (`pkg/oauthserver/config.go`). Durations are 64-bit integers, whose sum
 wraps; what the URL library decides is given as functions.
 */
module Config {
  import opened Scopes
  import opened Model

  const INT64_HALF: int := 0x8000_0000_0000_0000
  type int64 = n: int | -INT64_HALF <= n < INT64_HALF

  /** `int64` addition. */
  function Add64(a: int64, b: int64): (r: int64)
    ensures -INT64_HALF <= a + b < INT64_HALF ==> r == a + b
  {
    (a + b + INT64_HALF) % (2 * INT64_HALF) - INT64_HALF
  }

  /** The URL library's verdicts on a text. */
  datatype Urls = Urls(issuer: string -> bool, origin: string -> bool, absolute: string -> bool,
                       redirect: string -> bool)

  datatype ResourceConfig = ResourceConfig(id: string, displayName: string, supportedScopes: seq<string>)

  datatype HTTPPolicy = HTTPPolicy(maxBodyBytes: int, maxFieldBytes: int, maxArrayLength: int)

  datatype Settings = Settings(
    issuer: string,
    resources: seq<ResourceConfig>,
    supportedScopes: ScopeSet,
    accessTTL: int64,
    refreshTTL: int64,
    transactionTTL: int64,
    consentTTL: int64,
    codeTTL: int64,
    statePolicy: StatePolicy,
    http: HTTPPolicy)

  predicate LifetimesAccepted(c: Settings) {
    && c.accessTTL > 0 && c.refreshTTL > Add64(c.consentTTL, c.codeTTL)
    && c.transactionTTL > 0 && c.consentTTL > 0 && c.codeTTL > 0
  }

  predicate ResourceAccepted(rc: ResourceConfig, supported: ScopeSet, urls: Urls) {
    var id := TrimSpace(rc.id);
    var scopes := FromValues(rc.supportedScopes);
    urls.absolute(id) && urls.origin(id) && TrimSpace(rc.displayName) != ""
    && scopes.Some? && IsSubsetOf(scopes.value, supported)
  }

  predicate DistinctIDs(resources: seq<ResourceConfig>) {
    forall i, j | 0 <= i < j < |resources| :: TrimSpace(resources[i].id) != TrimSpace(resources[j].id)
  }

  ghost function IDs(resources: seq<ResourceConfig>): set<ResourceID> {
    set i | 0 <= i < |resources| :: TrimSpace(resources[i].id)
  }

  /** One more resource keeps the IDs distinct exactly when its ID is new. */
  lemma DistinctStep(resources: seq<ResourceConfig>, i: nat)
    requires i < |resources|
    ensures IDs(resources[..i + 1]) == IDs(resources[..i]) + {TrimSpace(resources[i].id)}
    ensures DistinctIDs(resources[..i + 1]) <==>
              DistinctIDs(resources[..i]) && TrimSpace(resources[i].id) !in IDs(resources[..i])
    ensures DistinctIDs(resources) ==> DistinctIDs(resources[..i + 1])
  {
    hide TrimSpace;
    if TrimSpace(resources[i].id) in IDs(resources[..i]) {
      var k :| 0 <= k < i && TrimSpace(resources[k].id) == TrimSpace(resources[i].id);
      assert resources[..i + 1][k] == resources[k] && resources[..i + 1][i] == resources[i];
    }
    forall j, k | 0 <= j < k < i + 1
      ensures resources[..i + 1][j] == resources[j] && resources[..i + 1][k] == resources[k]
    {
    }
    assert forall k | 0 <= k < i :: resources[..i][k] == resources[..i + 1][k];
    assert forall k | 0 <= k < i :: TrimSpace(resources[..i][k].id) in IDs(resources[..i]);
  }

  predicate LimitsAccepted(c: Settings) {
    var r, s := c.statePolicy.registration, c.statePolicy.capacity;
    && r.maxClients > 0 && r.maxRedirectURIs > 0 && r.maxDisplayName > 0 && r.maxScopeCount > 0
    && r.maxRedirectBytes > 0 && r.unverifiedClientTTL > 0
    && s.maxAuthorizations > 0 && s.maxConsents > 0 && s.maxCodes > 0 && s.maxRefreshGrants > 0
    && s.maxRefreshGenerations != 0
    && c.http.maxBodyBytes > 0 && c.http.maxFieldBytes > 0 && c.http.maxArrayLength > 0
  }

  predicate Accepted(c: Settings, urls: Urls) {
    && urls.issuer(c.issuer) && c.resources != [] && LifetimesAccepted(c)
    && (forall i | 0 <= i < |c.resources| :: ResourceAccepted(c.resources[i], c.supportedScopes, urls))
    && DistinctIDs(c.resources) && LimitsAccepted(c)
  }

  lemma NoIDs()
    ensures IDs([]) == {} && DistinctIDs([])
  {
  }

  /** The loop over the configured resources. */
  method ValidateResources(resources: seq<ResourceConfig>, supported: ScopeSet, urls: Urls) returns (ok: bool)
    ensures ok <==> (forall i | 0 <= i < |resources| :: ResourceAccepted(resources[i], supported, urls))
                    && DistinctIDs(resources)
  {
    hide TrimSpace, ResourceAccepted, IDs;
    NoIDs();
    hide DistinctIDs;
    var seen: set<ResourceID> := {};
    for i := 0 to |resources|
      invariant forall k | 0 <= k < i :: ResourceAccepted(resources[k], supported, urls)
      invariant DistinctIDs(resources[..i]) && seen == IDs(resources[..i])
    {
      var id := TrimSpace(resources[i].id);
      DistinctStep(resources, i);
      if !ResourceAccepted(resources[i], supported, urls) || id in seen {
        return false;
      }
      seen := seen + {id};
    }
    assert resources[..|resources|] == resources;
    ok := true;
  }

  method Validate(c: Settings, urls: Urls) returns (ok: bool)
    ensures ok <==> Accepted(c, urls)
  {
    hide ResourceAccepted, DistinctIDs, LifetimesAccepted, LimitsAccepted;
    if !urls.issuer(c.issuer) {
      return false;
    }
    if |c.resources| == 0 || !LifetimesAccepted(c) {
      return false;
    }
    ok := ValidateResources(c.resources, c.supportedScopes, urls);
    ok := ok && LimitsAccepted(c);
  }

  /**
   The lifetime rule that an accepted configuration is meant to obey holds exactly when the
   sum it is compared with does not overflow.
   */
  lemma LifetimeRule(c: Settings, urls: Urls)
    requires Accepted(c, urls)
    ensures c.refreshTTL > c.consentTTL + c.codeTTL <==> c.consentTTL + c.codeTTL < INT64_HALF
    ensures ValidPolicy(c.statePolicy)
  {
    var sum := c.consentTTL + c.codeTTL;
    if sum >= INT64_HALF {
      assert c.refreshTTL < INT64_HALF;
    }
  }

  /** Two lifetimes of 2^62 nanoseconds overflow to the least integer, so any refresh lifetime passes. */
  lemma OverflowAccepted(c: Settings)
    requires c.consentTTL == INT64_HALF / 2 && c.codeTTL == INT64_HALF / 2 && c.refreshTTL == 1
    requires c.accessTTL > 0 && c.transactionTTL > 0
    ensures LifetimesAccepted(c) && c.refreshTTL < c.consentTTL + c.codeTTL
  {
    assert Add64(c.consentTTL, c.codeTTL) == -INT64_HALF;
  }
}
