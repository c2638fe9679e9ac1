/**
 The in-memory store (`pkg/memorytest/store.go`): five map fields changed in place. Each
 method is one critical section, and its contract ties the new contents to `StoreSpec`.
 The clock readings a method makes are its last parameters.
 */
module MemoryStore {
  import opened Scopes
  import opened Model
  import opened Transitions
  import Spec = StoreSpec

  class Store {
    var clients: map<ClientID, Client>
    var authorizers: map<CredentialDigest, Authorization>
    var consents: map<CredentialDigest, Consent>
    var codes: map<CredentialDigest, Code>
    var refresh: map<CredentialDigest, Grant>

    ghost function Contents(): Spec.State
      reads this
    {
      Spec.State(clients, authorizers, consents, codes, refresh)
    }

    constructor ()
      ensures Contents() == Spec.EMPTY
    {
      clients, authorizers, consents, codes, refresh := map[], map[], map[], map[], map[];
    }

    // -----------------------------------------------------------------------
    // Reads
    // -----------------------------------------------------------------------

    method GetClient(id: ClientID) returns (r: Option<Client>)
      ensures r == if id in clients then Some(clients[id]) else None
    {
      r := if id in clients then Some(clients[id]) else None;
    }

    method GetAuthorization(digest: CredentialDigest) returns (r: Option<Authorization>)
      ensures r == if digest in authorizers then Some(authorizers[digest]) else None
    {
      r := if digest in authorizers then Some(authorizers[digest]) else None;
    }

    method GetConsent(digest: CredentialDigest) returns (r: Option<Consent>)
      ensures r == if digest in consents then Some(consents[digest]) else None
    {
      r := if digest in consents then Some(consents[digest]) else None;
    }

    /** Not found and bound to another client or redirect are both refusals. */
    method GetCodeForExchange(digest: CredentialDigest, clientID: ClientID, redirectURI: RedirectURI)
      returns (r: Option<Code>)
      ensures r.Some? <==>
                digest in codes && codes[digest].clientID == clientID && codes[digest].redirectURI == redirectURI
      ensures r.Some? ==> r.value == codes[digest]
    {
      if digest !in codes {
        return None;
      }
      var code := codes[digest];
      if code.clientID != clientID || code.redirectURI != redirectURI {
        return None;
      }
      r := Some(code);
    }

    method GetRefreshGrant(digest: CredentialDigest) returns (r: Option<Grant>)
      ensures r == if digest in refresh then Some(refresh[digest]) else None
    {
      r := if digest in refresh then Some(refresh[digest]) else None;
    }

    // -----------------------------------------------------------------------
    // Pruning
    // -----------------------------------------------------------------------

    method PruneAuthorizations(now: Time) returns (removed: nat)
      modifies this`authorizers
      ensures authorizers == Spec.PruneAuthorizations(old(authorizers), now)
      ensures removed + |authorizers| == |old(authorizers)|
    {
      ghost var before := authorizers;
      removed := 0;
      var todo := authorizers.Keys;
      while todo != {}
        invariant todo <= authorizers.Keys <= before.Keys
        invariant removed + |authorizers| == |before|
        invariant forall d | d in authorizers :: authorizers[d] == before[d] && (d in todo || before[d].expiresAt > now)
        invariant forall d | d in before && d !in authorizers :: before[d].expiresAt <= now
        decreases todo
      {
        var d :| d in todo;
        todo := todo - {d};
        if authorizers[d].expiresAt <= now {
          authorizers := authorizers - {d};
          removed := removed + 1;
        }
      }
    }

    method PruneConsents(now: Time) returns (removed: nat)
      modifies this`consents
      ensures consents == Spec.PruneConsents(old(consents), now)
      ensures removed + |consents| == |old(consents)|
    {
      ghost var before := consents;
      removed := 0;
      var todo := consents.Keys;
      while todo != {}
        invariant todo <= consents.Keys <= before.Keys
        invariant removed + |consents| == |before|
        invariant forall d | d in consents :: consents[d] == before[d] && (d in todo || before[d].expiresAt > now)
        invariant forall d | d in before && d !in consents :: before[d].expiresAt <= now
        decreases todo
      {
        var d :| d in todo;
        todo := todo - {d};
        if consents[d].expiresAt <= now {
          consents := consents - {d};
          removed := removed + 1;
        }
      }
    }

    method PruneCodes(now: Time) returns (removed: nat)
      modifies this`codes
      ensures codes == Spec.PruneCodes(old(codes), now)
      ensures removed + |codes| == |old(codes)|
    {
      ghost var before := codes;
      removed := 0;
      var todo := codes.Keys;
      while todo != {}
        invariant todo <= codes.Keys <= before.Keys
        invariant removed + |codes| == |before|
        invariant forall d | d in codes :: codes[d] == before[d] && (d in todo || before[d].expiresAt > now)
        invariant forall d | d in before && d !in codes :: before[d].expiresAt <= now
        decreases todo
      {
        var d :| d in todo;
        todo := todo - {d};
        if codes[d].expiresAt <= now {
          codes := codes - {d};
          removed := removed + 1;
        }
      }
    }

    /** A Go map of times answers the zero time for an absent key. */
    static function Expiry(times: map<RefreshFamilyID, Time>, family: RefreshFamilyID): Time {
      if family in times then times[family] else ZERO_TIME
    }

    /** First pass: the latest expiry of each family decides whether it is live. */
    method FamilyExpiry() returns (times: map<RefreshFamilyID, Time>)
      ensures forall family, now :: Expiry(times, family) > now <==> Spec.FamilyLive(refresh, family, now)
    {
      times := map[];
      var todo := refresh.Keys;
      while todo != {}
        invariant todo <= refresh.Keys
        invariant forall d | d in refresh && d !in todo :: refresh[d].expiresAt <= Expiry(times, refresh[d].familyID)
        invariant forall family | family in times :: times[family] > ZERO_TIME
        invariant forall family | family in times ::
                    exists d :: d in refresh && refresh[d].familyID == family && refresh[d].expiresAt == times[family]
        decreases todo
      {
        var d :| d in todo;
        todo := todo - {d};
        var grant := refresh[d];
        if grant.expiresAt > Expiry(times, grant.familyID) {
          times := times[grant.familyID := grant.expiresAt];
        }
      }
      forall family, now
        ensures Expiry(times, family) > now <==> Spec.FamilyLive(refresh, family, now)
      {
        if family in times {
          var d :| d in refresh && refresh[d].familyID == family && refresh[d].expiresAt == times[family];
          assert times[family] > now ==> refresh[d].expiresAt > now;
        }
      }
    }

    /** Second pass. */
    method PruneRefresh(now: Time) returns (removed: nat)
      modifies this`refresh
      ensures refresh == Spec.PruneRefresh(old(refresh), now)
      ensures removed + |refresh| == |old(refresh)|
    {
      hide Spec.FamilyLive, Expiry;
      ghost var before := refresh;
      var times := FamilyExpiry();
      removed := 0;
      var todo := refresh.Keys;
      while todo != {}
        invariant todo <= refresh.Keys <= before.Keys
        invariant removed + |refresh| == |before|
        invariant forall d | d in refresh ::
                    refresh[d] == before[d] && (d in todo || Expiry(times, before[d].familyID) > now)
        invariant forall d | d in before && d !in refresh :: Expiry(times, before[d].familyID) <= now
        decreases todo
      {
        var d :| d in todo;
        todo := todo - {d};
        if Expiry(times, refresh[d].familyID) <= now {
          refresh := refresh - {d};
          removed := removed + 1;
        }
      }
    }

    /** Removes exactly the expired records and the families past their latest expiry, and counts them. */
    method PruneExpired(now: Time) returns (stats: PruneStats)
      modifies this
      ensures Contents() == Spec.Prune(old(Contents()), now)
      ensures stats == Spec.PruneCounts(old(Contents()), now)
    {
      hide Spec.PruneAuthorizations, Spec.PruneConsents, Spec.PruneCodes, Spec.PruneRefresh;
      var a := PruneAuthorizations(now);
      var b := PruneConsents(now);
      var c := PruneCodes(now);
      var g := PruneRefresh(now);
      stats := PruneStats(a, b, c, g);
    }

    // -----------------------------------------------------------------------
    // Loops over the tables
    // -----------------------------------------------------------------------

    method ClientHasLiveState(id: ClientID, now: Time) returns (live: bool)
      ensures live <==> Spec.HasLiveState(Contents(), id, now)
    {
      var a := authorizers.Keys;
      while a != {}
        invariant a <= authorizers.Keys
        invariant forall d | d in authorizers && d !in a :: !Spec.LiveAuthorization(authorizers[d], id, now)
        decreases a
      {
        var d :| d in a;
        a := a - {d};
        if authorizers[d].clientID == id && authorizers[d].consumedAt == ZERO_TIME && authorizers[d].expiresAt > now {
          return true;
        }
      }
      var b := consents.Keys;
      while b != {}
        invariant b <= consents.Keys
        invariant forall d | d in consents && d !in b :: !Spec.LiveConsent(consents[d], id, now)
        decreases b
      {
        var d :| d in b;
        b := b - {d};
        if consents[d].client.id == id && consents[d].consumedAt == ZERO_TIME && consents[d].expiresAt > now {
          return true;
        }
      }
      var c := codes.Keys;
      while c != {}
        invariant c <= codes.Keys
        invariant forall d | d in codes && d !in c :: !Spec.LiveCode(codes[d], id, now)
        decreases c
      {
        var d :| d in c;
        c := c - {d};
        if codes[d].clientID == id && codes[d].consumedAt == ZERO_TIME && codes[d].expiresAt > now {
          return true;
        }
      }
      var g := refresh.Keys;
      while g != {}
        invariant g <= refresh.Keys
        invariant forall d | d in refresh && d !in g :: !Spec.LiveGrant(refresh[d], id, now)
        decreases g
      {
        var d :| d in g;
        g := g - {d};
        if refresh[d].clientID == id && refresh[d].revokedAt == ZERO_TIME && refresh[d].expiresAt > now {
          return true;
        }
      }
      live := false;
    }

    method EvictIdleClients(policy: RegistrationPolicy, now: Time)
      modifies this`clients
      ensures Contents() == Spec.Evict(old(Contents()), policy, now)
    {
      ghost var before := Contents();
      var todo := clients.Keys;
      while todo != {}
        invariant todo <= clients.Keys
        invariant clients == map id | id in before.clients
            && (id in todo || !Spec.Evictable(before, id, policy, now)) :: before.clients[id]
        decreases todo
      {
        var id :| id in todo;
        todo := todo - {id};
        var existing := clients[id];
        var live := ClientHasLiveState(id, now);
        assert live == Spec.HasLiveState(before, id, now);
        if existing.trust == Unverified && existing.lastUsedAt <= now - policy.unverifiedClientTTL && !live {
          clients := clients - {id};
        }
      }
    }

    method CountActiveGrants() returns (count: nat)
      ensures count == |Spec.ActiveGrants(refresh)|
    {
      count := 0;
      ghost var counted: set<CredentialDigest> := {};
      var todo := refresh.Keys;
      while todo != {}
        invariant todo <= refresh.Keys
        invariant counted == set d | d in refresh && d !in todo && refresh[d].Active()
        invariant count == |counted|
        decreases todo
      {
        var d :| d in todo;
        todo := todo - {d};
        if refresh[d].consumedAt == ZERO_TIME && refresh[d].revokedAt == ZERO_TIME {
          counted := counted + {d};
          count := count + 1;
        }
      }
      assert counted == Spec.ActiveGrants(refresh);
    }

    method RevokeFamily(family: RefreshFamilyID, at: Time)
      modifies this`refresh
      ensures refresh == Spec.RevokeRows(old(refresh), family, at)
    {
      ghost var before := refresh;
      ghost var after := Spec.RevokeRows(before, family, at);
      var todo := refresh.Keys;
      while todo != {}
        invariant todo <= refresh.Keys
        invariant refresh == map d | d in before :: if d in todo then before[d] else after[d]
        decreases todo
      {
        var d :| d in todo;
        todo := todo - {d};
        var grant := refresh[d];
        if grant.familyID == family && grant.revokedAt == ZERO_TIME {
          refresh := refresh[d := grant.(revokedAt := at)];
        }
      }
    }

    // -----------------------------------------------------------------------
    // Commits
    // -----------------------------------------------------------------------

    method RegisterClient(client: Client, policy: StatePolicy, now: Time) returns (r: Outcome)
      modifies this
      ensures (Contents(), r)
              == Spec.RegisterClient(Spec.Evict(old(Contents()), policy.registration, now), client, policy)
    {
      EvictIdleClients(policy.registration, now);
      if |clients| >= policy.registration.maxClients {
        return Err(Capacity);
      }
      if client.id in clients {
        return Err(Conflict);
      }
      clients := clients[client.id := client];
      r := Ok;
    }

    method TouchClient(id: ClientID, at: Time) returns (r: Outcome)
      modifies this`clients
      ensures (Contents(), r) == Spec.TouchClient(old(Contents()), id, at)
    {
      if id !in clients {
        return Err(NotFound);
      }
      clients := clients[id := clients[id].(lastUsedAt := at)];
      r := Ok;
    }

    method CreateAuthorization(auth: Authorization, policy: StatePolicy, pruneAt: Time) returns (r: Outcome)
      modifies this
      ensures (Contents(), r) == Spec.CreateAuthorization(Spec.Prune(old(Contents()), pruneAt), auth, policy)
    {
      var _ := PruneExpired(pruneAt);
      if |authorizers| >= policy.capacity.maxAuthorizations {
        return Err(Capacity);
      }
      var digest := DigestCredential(auth.token);
      if digest in authorizers {
        return Err(Conflict);
      }
      authorizers := authorizers[digest := auth];
      r := Ok;
    }

    method CommitLogin(commit: LoginCommit, policy: StatePolicy, pruneAt: Time, now: Time) returns (r: Outcome)
      modifies this
      ensures (Contents(), r) == Spec.CommitLogin(Spec.Prune(old(Contents()), pruneAt), commit, policy, now)
    {
      var _ := PruneExpired(pruneAt);
      if commit.transaction !in authorizers {
        return Err(NotFound);
      }
      var auth := authorizers[commit.transaction];
      var verdict := ValidateLoginCommit(auth, commit.consent, now);
      if verdict.Err? {
        return verdict;
      }
      if |consents| >= policy.capacity.maxConsents {
        return Err(Capacity);
      }
      var digest := DigestCredential(commit.consent.token);
      if digest in consents {
        return Err(Conflict);
      }
      authorizers := authorizers[commit.transaction := auth.(consumedAt := now)];
      consents := consents[digest := commit.consent];
      r := Ok;
    }

    /** On success also answers the redirect URI of the decided consent. */
    method CommitConsent(commit: ConsentCommit, policy: StatePolicy, pruneAt: Time, now: Time)
      returns (r: Outcome, redirectURI: RedirectURI)
      modifies this
      ensures (Contents(), r) == Spec.CommitConsent(Spec.Prune(old(Contents()), pruneAt), commit, policy, now)
      ensures r.Ok? ==> commit.consent in consents && redirectURI == consents[commit.consent].client.redirectURI
    {
      var _ := PruneExpired(pruneAt);
      if commit.consent !in consents {
        return Err(NotFound), "";
      }
      var consent := consents[commit.consent];
      var verdict := ValidateConsentCommit(consent, commit, now);
      if verdict.Err? {
        return verdict, "";
      }
      if commit.decision == Approve {
        if |codes| >= policy.capacity.maxCodes {
          return Err(Capacity), "";
        }
        if commit.code.digest in codes {
          return Err(Conflict), "";
        }
        codes := codes[commit.code.digest := commit.code];
      }
      consents := consents[commit.consent := consent.(consumedAt := now)];
      r, redirectURI := Ok, consent.client.redirectURI;
    }

    method CommitCodeExchange(commit: ExchangeCommit, policy: StatePolicy, pruneAt: Time, now: Time)
      returns (r: Outcome)
      modifies this
      ensures (Contents(), r) == Spec.CommitCodeExchange(Spec.Prune(old(Contents()), pruneAt), commit, policy, now)
    {
      var _ := PruneExpired(pruneAt);
      if commit.code !in codes {
        return Err(NotFound);
      }
      var code := codes[commit.code];
      var verdict := ValidateCodeExchangeCommit(code, commit, now);
      if verdict.Err? {
        return verdict;
      }
      var active := CountActiveGrants();
      if active >= policy.capacity.maxRefreshGrants {
        return Err(Capacity);
      }
      var grant := commit.refresh.value;
      if grant.digest in refresh {
        return Err(Conflict);
      }
      codes := codes[commit.code := code.(consumedAt := now)];
      refresh := refresh[grant.digest := grant];
      r := Ok;
    }

    method CommitRefreshRotation(rotation: Rotation, policy: StatePolicy, pruneAt: Time, now: Time)
      returns (r: Outcome)
      modifies this
      ensures (Contents(), r) == Spec.CommitRefreshRotation(Spec.Prune(old(Contents()), pruneAt), rotation, policy, now)
    {
      var _ := PruneExpired(pruneAt);
      if rotation.current !in refresh {
        return Err(NotFound);
      }
      var current := refresh[rotation.current];
      if current.familyID != rotation.familyID || current.generation != rotation.generation {
        return Err(Binding);
      }
      if current.consumedAt != ZERO_TIME || current.revokedAt != ZERO_TIME {
        RevokeFamily(rotation.familyID, now);
        return Err(Revoked);
      }
      var verdict := ValidateRefreshRotation(current, rotation, now);
      if verdict.Err? {
        return verdict;
      }
      if rotation.successor.generation >= policy.capacity.maxRefreshGenerations {
        RevokeFamily(rotation.familyID, now);
        return Err(Revoked);
      }
      if rotation.successor.digest in refresh {
        return Err(Conflict);
      }
      refresh := refresh[rotation.current := current.(consumedAt := now)];
      refresh := refresh[rotation.successor.digest := rotation.successor];
      r := Ok;
    }

    method RevokeRefreshFamily(family: RefreshFamilyID, at: Time)
      modifies this
      ensures Contents() == Spec.RevokeFamily(old(Contents()), family, at)
    {
      RevokeFamily(family, at);
    }

    method Prune(now: Time) returns (stats: PruneStats)
      modifies this
      ensures Contents() == Spec.Prune(old(Contents()), now)
      ensures stats == Spec.PruneCounts(old(Contents()), now)
    {
      stats := PruneExpired(now);
    }
  }
}
