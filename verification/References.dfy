/**
 Whether every live record names a registered client. `BeginAuthorization` touches the client
 and creates the transaction in two store calls, and a registration in between may evict the
 client, so this holds exactly as long as every creation still finds its client.
 */
module References {
  import opened Scopes
  import opened Model
  import opened Transitions
  import opened StoreSpec
  import opened StoreRuns
  import opened StoreSafety
  import opened FamilySafety

  ghost predicate AuthsReferenced(rows: Auths, clients: set<ClientID>, now: Time) {
    forall d | d in rows && rows[d].consumedAt == ZERO_TIME && rows[d].expiresAt > now :: rows[d].clientID in clients
  }

  ghost predicate ConsentsReferenced(rows: Consents, clients: set<ClientID>, now: Time) {
    forall d | d in rows && rows[d].consumedAt == ZERO_TIME && rows[d].expiresAt > now :: rows[d].client.id in clients
  }

  ghost predicate CodesReferenced(rows: Codes, clients: set<ClientID>, now: Time) {
    forall d | d in rows && rows[d].consumedAt == ZERO_TIME && rows[d].expiresAt > now :: rows[d].clientID in clients
  }

  ghost predicate GrantsReferenced(rows: Grants, clients: set<ClientID>, now: Time) {
    forall d | d in rows && rows[d].revokedAt == ZERO_TIME && rows[d].expiresAt > now :: rows[d].clientID in clients
  }

  /** Every live, unspent record names a registered client. */
  ghost predicate Referenced(s: State, now: Time) {
    && AuthsReferenced(s.authorizations, s.clients.Keys, now)
    && ConsentsReferenced(s.consents, s.clients.Keys, now)
    && CodesReferenced(s.codes, s.clients.Keys, now)
    && GrantsReferenced(s.refresh, s.clients.Keys, now)
  }

  lemma PruneKeepsReferences(s: State, now: Time, t: Time)
    requires now <= t && Referenced(s, now)
    ensures Referenced(Prune(s, t), t)
  {
  }

  lemma RevokeKeepsReferences(rows: Grants, clients: set<ClientID>, now: Time, family: RefreshFamilyID, at: Time)
    requires at != ZERO_TIME && GrantsReferenced(rows, clients, now)
    ensures GrantsReferenced(RevokeRows(rows, family, at), clients, now)
  {
  }

  /** The tables' references say the same as the eviction guard, record by record. */
  lemma ReferencedIsLive(s: State, now: Time)
    ensures Referenced(s, now) <==> forall id | HasLiveState(s, id, now) :: id in s.clients
  {
    if forall id | HasLiveState(s, id, now) :: id in s.clients {
      forall d | d in s.authorizations && s.authorizations[d].consumedAt == ZERO_TIME
        && s.authorizations[d].expiresAt > now
        ensures s.authorizations[d].clientID in s.clients
      {
        assert LiveAuthorization(s.authorizations[d], s.authorizations[d].clientID, now);
      }
      forall d | d in s.consents && s.consents[d].consumedAt == ZERO_TIME && s.consents[d].expiresAt > now
        ensures s.consents[d].client.id in s.clients
      {
        assert LiveConsent(s.consents[d], s.consents[d].client.id, now);
      }
      forall d | d in s.codes && s.codes[d].consumedAt == ZERO_TIME && s.codes[d].expiresAt > now
        ensures s.codes[d].clientID in s.clients
      {
        assert LiveCode(s.codes[d], s.codes[d].clientID, now);
      }
      forall d | d in s.refresh && s.refresh[d].revokedAt == ZERO_TIME && s.refresh[d].expiresAt > now
        ensures s.refresh[d].clientID in s.clients
      {
        assert LiveGrant(s.refresh[d], s.refresh[d].clientID, now);
      }
    }
  }

  lemma EvictKeepsReferences(s: State, now: Time, policy: RegistrationPolicy)
    requires Referenced(s, now)
    ensures Referenced(Evict(s, policy, now), now)
  {
    var e := Evict(s, policy, now);
    ReferencedIsLive(s, now);
    ReferencedIsLive(e, now);
    forall id | HasLiveState(e, id, now)
      ensures id in e.clients
    {
      assert HasLiveState(s, id, now);
    }
  }

  lemma LoginKeepsReferences(s: State, tx: CredentialDigest, digest: CredentialDigest, session: Consent, now: Time)
    requires AuthsReferenced(s.authorizations, s.clients.Keys, now)
    requires ConsentsReferenced(s.consents, s.clients.Keys, now)
    requires tx in s.authorizations && now != ZERO_TIME
    requires s.authorizations[tx].consumedAt == ZERO_TIME && s.authorizations[tx].expiresAt > now
    requires session.client.id == s.authorizations[tx].clientID
    ensures AuthsReferenced(s.authorizations[tx := s.authorizations[tx].(consumedAt := now)], s.clients.Keys, now)
    ensures ConsentsReferenced(s.consents[digest := session], s.clients.Keys, now)
  {
  }

  lemma DecideKeepsReferences(s: State, commit: ConsentCommit, now: Time)
    requires ConsentsReferenced(s.consents, s.clients.Keys, now)
    requires CodesReferenced(s.codes, s.clients.Keys, now)
    requires commit.consent in s.consents && now != ZERO_TIME
    requires s.consents[commit.consent].consumedAt == ZERO_TIME && s.consents[commit.consent].expiresAt > now
    ensures ConsentsReferenced(s.consents[commit.consent := s.consents[commit.consent].(consumedAt := now)],
                               s.clients.Keys, now)
    ensures commit.code.clientID == s.consents[commit.consent].client.id ==>
              CodesReferenced(s.codes[commit.code.digest := commit.code], s.clients.Keys, now)
  {
  }

  lemma ExchangeKeepsReferences(s: State, code: CredentialDigest, g: Grant, now: Time)
    requires CodesReferenced(s.codes, s.clients.Keys, now)
    requires GrantsReferenced(s.refresh, s.clients.Keys, now)
    requires code in s.codes && now != ZERO_TIME
    requires s.codes[code].consumedAt == ZERO_TIME && s.codes[code].expiresAt > now
    requires g.clientID == s.codes[code].clientID
    ensures CodesReferenced(s.codes[code := s.codes[code].(consumedAt := now)], s.clients.Keys, now)
    ensures GrantsReferenced(s.refresh[g.digest := g], s.clients.Keys, now)
  {
  }

  lemma RotateKeepsReferences(rows: Grants, clients: set<ClientID>, d: CredentialDigest, next: Grant, now: Time)
    requires GrantsReferenced(rows, clients, now)
    requires d in rows && rows[d].Active() && rows[d].expiresAt > now && next.clientID == rows[d].clientID
    ensures GrantsReferenced(rows[d := rows[d].(consumedAt := now)][next.digest := next], clients, now)
  {
  }

  // -------------------------------------------------------------------------
  // One call
  // -------------------------------------------------------------------------

  /** A creation that stores a live transaction finds the client still registered. */
  ghost predicate FindsClient(w: World, e: Event, policy: StatePolicy) {
    (e.Create? && Apply(w.store, e, policy).1.Ok? && LiveAuthorization(e.auth, e.auth.clientID, e.pruneAt))
    ==> e.auth.clientID in w.store.clients
  }

  lemma AgeKeepsReferences(s: State, now: Time, t: Time)
    requires now <= t && Referenced(s, now)
    ensures Referenced(s, t)
  {
  }

  lemma RegisterKeepsReferences(s: State, client: Client, now: Time, policy: StatePolicy)
    requires Referenced(s, now)
    ensures Referenced(Apply(s, Register(client, now), policy).0, now)
  {
    EvictKeepsReferences(s, now, policy.registration);
    hide Evict;
  }

  lemma TouchKeepsReferences(s: State, id: ClientID, at: Time, now: Time)
    requires Referenced(s, now)
    ensures Referenced(TouchClient(s, id, at).0, now)
  {
    hide AuthsReferenced, ConsentsReferenced, CodesReferenced, GrantsReferenced;
    if id in s.clients {
      assert s.clients[id := s.clients[id].(lastUsedAt := at)].Keys == s.clients.Keys;
    }
  }

  lemma CreateReferences(p: State, auth: Authorization, policy: StatePolicy, t: Time)
    requires Referenced(p, t) && CreateAuthorization(p, auth, policy).1.Ok?
    ensures Referenced(CreateAuthorization(p, auth, policy).0, t)
            <==> (LiveAuthorization(auth, auth.clientID, t) ==> auth.clientID in p.clients)
  {
    hide ConsentsReferenced, CodesReferenced, GrantsReferenced;
    var d := DigestCredential(auth.token);
    assert CreateAuthorization(p, auth, policy).0.authorizations[d] == auth;
  }

  lemma RevocationKeepsReferences(s: State, family: RefreshFamilyID, at: Time, now: Time)
    requires Referenced(s, now) && at != ZERO_TIME
    ensures Referenced(RevokeFamily(s, family, at), now)
  {
    hide AuthsReferenced, ConsentsReferenced, CodesReferenced, GrantsReferenced;
    RevokeKeepsReferences(s.refresh, s.clients.Keys, now, family, at);
  }

  /** A successful commit on a pruned state. */
  lemma CommitKeepsReferences(p: State, e: Event, policy: StatePolicy)
    requires e.Login? || e.Decide? || e.Exchange? || e.Rotate?
    requires Referenced(p, e.now) && e.now > ZERO_TIME
    requires match e
             case Login(commit, _, now) => CommitLogin(p, commit, policy, now).1.Ok?
             case Decide(commit, _, now) => CommitConsent(p, commit, policy, now).1.Ok?
             case Exchange(commit, _, now) => CommitCodeExchange(p, commit, policy, now).1.Ok?
             case Rotate(rotation, _, now) => CommitRefreshRotation(p, rotation, policy, now).1.Ok?
    ensures match e
            case Login(commit, _, now) => Referenced(CommitLogin(p, commit, policy, now).0, now)
            case Decide(commit, _, now) => Referenced(CommitConsent(p, commit, policy, now).0, now)
            case Exchange(commit, _, now) => Referenced(CommitCodeExchange(p, commit, policy, now).0, now)
            case Rotate(rotation, _, now) => Referenced(CommitRefreshRotation(p, rotation, policy, now).0, now)
  {
    hide AuthsReferenced, ConsentsReferenced, CodesReferenced, GrantsReferenced, ActiveGrants;
    hide CommitLogin, CommitConsent, CommitCodeExchange, CommitRefreshRotation;
    hide LoginBound, ConsentBound, ExchangeBound;
    if e.Login? {
      LoginAccepted(p, e.login, policy, e.now);
      LoginKeepsReferences(p, e.login.transaction, DigestCredential(e.login.consent.token), e.login.consent, e.now);
    } else if e.Decide? {
      ConsentAccepted(p, e.decide, policy, e.now);
      DecideKeepsReferences(p, e.decide, e.now);
    } else if e.Exchange? {
      ExchangeAccepted(p, e.exchange, policy, e.now);
      ExchangeKeepsReferences(p, e.exchange.code, e.exchange.refresh.value, e.now);
    } else {
      RotationAccepted(p, e.rotation, policy, e.now);
      RotateKeepsReferences(p.refresh, p.clients.Keys, e.rotation.current, e.rotation.successor, e.now);
    }
  }

  lemma RefusalKeepsReferences(w: World, e: Event, policy: StatePolicy)
    requires Apply(w.store, e, policy).1.Err? && !e.Register? && !e.Touch?
    requires Enabled(w, e, policy) && Referenced(w.store, w.now) && w.now > ZERO_TIME
    ensures Referenced(Next(w, e, policy).store, Next(w, e, policy).now)
  {
    hide Referenced, Apply, Record, Prune, RevokeFamily;
    RefusalChangesNothingLive(w.store, e, policy);
    if e.Revoke? {
      RevocationKeepsReferences(w.store, e.family, e.at, w.now);
    } else {
      PruneKeepsReferences(w.store, w.now, e.pruneAt);
      if e.Login? || e.Decide? || e.Exchange? || e.Rotate? {
        AgeKeepsReferences(Prune(w.store, e.pruneAt), e.pruneAt, e.now);
      }
      if e.Rotate? {
        RevocationKeepsReferences(Prune(w.store, e.pruneAt), e.rotation.familyID, e.now, e.now);
      }
    }
  }

  /** References survive a call exactly when it is not a creation whose client is gone. */
  lemma StepReferences(w: World, e: Event, policy: StatePolicy)
    requires Enabled(w, e, policy) && w.now > ZERO_TIME && Referenced(w.store, w.now)
    ensures Referenced(Next(w, e, policy).store, Next(w, e, policy).now) <==> FindsClient(w, e, policy)
  {
    hide Referenced, Record, Prune, RevokeFamily, TouchClient, LiveAuthorization, RegisterClient;
    hide CreateAuthorization, CommitLogin, CommitConsent, CommitCodeExchange, CommitRefreshRotation;
    if e.Register? {
      AgeKeepsReferences(w.store, w.now, e.now);
      RegisterKeepsReferences(w.store, e.client, e.now, policy);
    } else if e.Touch? {
      TouchKeepsReferences(w.store, e.id, e.at, w.now);
    } else if Apply(w.store, e, policy).1.Err? {
      RefusalKeepsReferences(w, e, policy);
    } else if e.Revoke? {
      RevocationKeepsReferences(w.store, e.family, e.at, w.now);
    } else {
      PruneKeepsReferences(w.store, w.now, e.pruneAt);
      if e.Create? {
        PruneKeepsClients(w.store, e.pruneAt);
        CreateReferences(Prune(w.store, e.pruneAt), e.auth, policy, e.pruneAt);
      } else if !e.Sweep? {
        AgeKeepsReferences(Prune(w.store, e.pruneAt), e.pruneAt, e.now);
        CommitKeepsReferences(Prune(w.store, e.pruneAt), e, policy);
      }
    }
  }

  // -------------------------------------------------------------------------
  // Runs
  // -------------------------------------------------------------------------

  /** Every client that a live record names is registered. */
  ghost predicate LiveStateHasClients(w: World) {
    forall id | HasLiveState(w.store, id, w.now) :: id in w.store.clients
  }

  ghost predicate CreationFindsClient(now: Time, es: seq<Event>, i: nat, policy: StatePolicy)
    requires i < |es|
  {
    FindsClient(Before(Start(now), es, i, policy), es[i], policy)
  }

  lemma StartIsReferenced(now: Time)
    ensures Referenced(Start(now).store, Start(now).now)
  {
  }

  /** From call to call along a run. */
  lemma {:induction false} ReferencesUpTo(now: Time, es: seq<Event>, n: nat, policy: StatePolicy)
    requires now > ZERO_TIME && ValidPolicy(policy) && Legal(Start(now), es, policy) && n <= |es|
    requires forall i | 0 <= i < n :: CreationFindsClient(now, es, i, policy)
    ensures var w := Before(Start(now), es, n, policy); Referenced(w.store, w.now)
    decreases n
  {
    hide Inv, Enabled, Next, Referenced, FindsClient, Start;
    if n == 0 {
      StartIsReferenced(now);
    } else {
      ReferencesUpTo(now, es, n - 1, policy);
      Reachable(now, es, n - 1, policy);
      NowIsSet(Before(Start(now), es, n - 1, policy), policy);
      RunStep(Start(now), es, n - 1, policy);
      assert CreationFindsClient(now, es, n - 1, policy);
      StepReferences(Before(Start(now), es, n - 1, policy), es[n - 1], policy);
    }
  }

  /**
   Along a run every state has the clients of its live records registered exactly when every
   creation of a live transaction found its client.
   */
  lemma LiveRecordsHaveClients(now: Time, es: seq<Event>, policy: StatePolicy)
    requires now > ZERO_TIME && ValidPolicy(policy) && Legal(Start(now), es, policy)
    ensures (forall i | 0 <= i <= |es| :: LiveStateHasClients(Before(Start(now), es, i, policy)))
            <==> (forall i | 0 <= i < |es| :: CreationFindsClient(now, es, i, policy))
  {
    hide Inv, Enabled, Next, Referenced, HasLiveState, FindsClient, Start, Before;
    if forall i | 0 <= i < |es| :: CreationFindsClient(now, es, i, policy) {
      forall i | 0 <= i <= |es|
        ensures LiveStateHasClients(Before(Start(now), es, i, policy))
      {
        var w := Before(Start(now), es, i, policy);
        ReferencesUpTo(now, es, i, policy);
        ReferencedIsLive(w.store, w.now);
      }
    }
    if forall i | 0 <= i <= |es| :: LiveStateHasClients(Before(Start(now), es, i, policy)) {
      forall i | 0 <= i < |es|
        ensures CreationFindsClient(now, es, i, policy)
      {
        var w, w' := Before(Start(now), es, i, policy), Before(Start(now), es, i + 1, policy);
        assert LiveStateHasClients(w) && LiveStateHasClients(w');
        ReferencedIsLive(w.store, w.now);
        ReferencedIsLive(w'.store, w'.now);
        Reachable(now, es, i, policy);
        NowIsSet(w, policy);
        RunStep(Start(now), es, i, policy);
        StepReferences(w, es[i], policy);
      }
    }
  }

  // -------------------------------------------------------------------------
  // How long a touched client stays
  // -------------------------------------------------------------------------

  lemma TouchedClientStays(w: World, e: Event, id: ClientID, since: Time, policy: StatePolicy)
    requires Enabled(w, e, policy)
    requires id in w.store.clients && w.store.clients[id].lastUsedAt >= since
    requires e.Touch? && e.id == id ==> e.at >= since
    requires Next(w, e, policy).now < since + policy.registration.unverifiedClientTTL
    ensures id in Next(w, e, policy).store.clients && Next(w, e, policy).store.clients[id].lastUsedAt >= since
  {
    hide PruneAuthorizations, PruneConsents, PruneCodes, PruneRefresh, RevokeRows, ActiveGrants, HasLiveState, Record;
    hide ValidateLoginCommit, ValidateConsentCommit, ValidateCodeExchangeCommit, ValidateRefreshRotation;
  }

  /**
   A client touched no earlier than `since`, by any caller, is still stored while the clock
   shows less than `since` plus the idle time. Readings are taken before the touch is made,
   so a call that is late may move the last use back; `since` has to cover those as well.
   */
  lemma {:induction false} TouchedClientSurvives(w: World, es: seq<Event>, id: ClientID, since: Time,
                                                 policy: StatePolicy)
    requires Legal(w, es, policy)
    requires id in w.store.clients && w.store.clients[id].lastUsedAt >= since
    requires forall k | 0 <= k < |es| :: es[k].Touch? && es[k].id == id ==> es[k].at >= since
    requires Run(w, es, policy).now < since + policy.registration.unverifiedClientTTL
    ensures id in Run(w, es, policy).store.clients
    decreases |es|
  {
    hide Enabled, Next;
    if es != [] {
      RunAges(Next(w, es[0], policy), es[1..], policy);
      TouchedClientStays(w, es[0], id, since, policy);
      TouchedClientSurvives(Next(w, es[0], policy), es[1..], id, since, policy);
    }
  }

  /** Registration, touch, another registration a whole idle time later, and the creation. */
  function GapRun(c: Client, other: Client, auth: Authorization, now: Time, later: Time): seq<Event> {
    [Register(c, now), Touch(c.id, now), Register(other, later), Create(auth, later)]
  }

  /**
   The gap between touch and creation: after an idle time, however short it is configured,
   another registration has evicted the client, and its new transaction is live without it.
   */
  lemma TransactionWithoutClient(c: Client, other: Client, auth: Authorization, now: Time, later: Time,
                                 policy: StatePolicy)
    requires now > ZERO_TIME && policy.registration.maxClients > 0 && policy.capacity.maxAuthorizations > 0
    requires policy.registration.unverifiedClientTTL > 0 && later >= now + policy.registration.unverifiedClientTTL
    requires c.trust == Unverified && c.id != other.id
    requires LiveAuthorization(auth, c.id, later)
    ensures var es := GapRun(c, other, auth, now, later);
            && Legal(Start(now), es, policy)
            && Succeeds(Start(now), es, 3, policy)
            && !LiveStateHasClients(Run(Start(now), es, policy))
  {
    var es := GapRun(c, other, auth, now, later);
    var w1, w2 := Registered(c, now), Registered(c.(lastUsedAt := now), now);
    var w3 := Registered(other, later);
    FirstRegistration(c, now, policy);
    assert w1.store.clients[c.id := c.(lastUsedAt := now)] == w2.store.clients;
    assert Next(w1, es[1], policy) == w2;
    SecondRegistration(c.(lastUsedAt := now), other, now, later, policy);
    FirstCreation(other, auth, later, policy);
    hide Next, Enabled, HasLiveState, Legal, Run;
    FourCalls(Start(now), es[0], es[1], es[2], es[3], policy);
    assert es[..3] == [es[0], es[1], es[2]];
  }

  lemma FourCalls(w: World, a: Event, b: Event, c: Event, d: Event, policy: StatePolicy)
    ensures var x := Next(w, a, policy);
            var y := Next(x, b, policy);
            var z := Next(y, c, policy);
            && (Enabled(w, a, policy) && Enabled(x, b, policy) && Enabled(y, c, policy) && Enabled(z, d, policy)
                ==> Legal(w, [a, b, c, d], policy))
            && Run(w, [a, b, c], policy) == z && Run(w, [a, b, c, d], policy) == Next(z, d, policy)
  {
    hide Next, Enabled;
    var x := Next(w, a, policy);
    var y := Next(x, b, policy);
    var z := Next(y, c, policy);
    assert [d][1..] == [] && [c, d][1..] == [d] && [b, c, d][1..] == [c, d] && [a, b, c, d][1..] == [b, c, d];
    assert [c][1..] == [] && [b, c][1..] == [c] && [a, b, c][1..] == [b, c];
    assert Legal(z, [d], policy) <==> Enabled(z, d, policy);
    assert Legal(y, [c, d], policy) <==> Enabled(y, c, policy) && Legal(z, [d], policy);
    assert Legal(x, [b, c, d], policy) <==> Enabled(x, b, policy) && Legal(y, [c, d], policy);
    assert Run(z, [d], policy) == Next(z, d, policy);
    assert Run(y, [c, d], policy) == Run(z, [d], policy) && Run(y, [c], policy) == z;
    assert Run(x, [b, c, d], policy) == Run(y, [c, d], policy) && Run(x, [b, c], policy) == Run(y, [c], policy);
  }

  /** The world in which one client is registered and nothing else is stored. */
  ghost function Registered(c: Client, now: Time): World {
    Start(now).(store := EMPTY.(clients := map[c.id := c]))
  }

  lemma FirstRegistration(c: Client, now: Time, policy: StatePolicy)
    requires policy.registration.maxClients > 0
    ensures Enabled(Start(now), Register(c, now), policy)
    ensures Next(Start(now), Register(c, now), policy) == Registered(c, now)
  {
    assert Evict(EMPTY, policy.registration, now).clients == map[];
    assert Evict(EMPTY, policy.registration, now) == EMPTY;
  }

  lemma SecondRegistration(c: Client, other: Client, now: Time, later: Time, policy: StatePolicy)
    requires policy.registration.maxClients > 0 && c.trust == Unverified && c.lastUsedAt == now
    requires policy.registration.unverifiedClientTTL > 0 && later >= now + policy.registration.unverifiedClientTTL
    ensures Enabled(Registered(c, now), Register(other, later), policy)
    ensures Next(Registered(c, now), Register(other, later), policy) == Registered(other, later)
  {
    assert Evict(Registered(c, now).store, policy.registration, later).clients == map[];
  }

  lemma FirstCreation(other: Client, auth: Authorization, now: Time, policy: StatePolicy)
    requires policy.capacity.maxAuthorizations > 0
    requires auth.clientID != other.id && LiveAuthorization(auth, auth.clientID, now)
    ensures var w, e := Registered(other, now), Create(auth, now);
            && Enabled(w, e, policy) && Apply(w.store, e, policy).1.Ok?
            && !LiveStateHasClients(Next(w, e, policy))
  {
    var w, e := Registered(other, now), Create(auth, now);
    assert Prune(w.store, now) == w.store;
    var after := Next(w, e, policy).store;
    assert after.authorizations[DigestCredential(auth.token)] == auth;
    assert HasLiveState(after, auth.clientID, now);
  }
}
