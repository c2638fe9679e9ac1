/**
 Runs of the store: any sequence of store calls, with any arguments, from the empty store.
 A world pairs the store with a record of everything that was ever inserted, so that what
 happened to a pruned credential can still be stated.
 */
module StoreRuns {
  import opened Scopes
  import opened Model
  import opened Transitions
  import opened StoreSpec

  /** A consent with the transaction it spent; a code with the consent; a family with the code. */
  datatype ConsentEntry = ConsentEntry(session: Consent, transaction: CredentialDigest)
  datatype CodeEntry = CodeEntry(record: Code, consent: CredentialDigest)
  datatype Family = Family(code: CredentialDigest, chain: seq<CredentialDigest>)

  type Auths = map<CredentialDigest, Authorization>
  type Sessions = map<CredentialDigest, ConsentEntry>
  type Records = map<CredentialDigest, CodeEntry>
  type Families = map<RefreshFamilyID, Family>
  type Grants = map<CredentialDigest, Grant>
  type Consents = map<CredentialDigest, Consent>
  type Codes = map<CredentialDigest, Code>

  datatype Past = Past(auths: Auths, consents: Sessions, codes: Records, families: Families, grants: Grants)

  datatype World = World(store: State, past: Past, now: Time)

  ghost function Record(past: Past, e: Event): Past {
    match e
    case Create(auth, _) => past.(auths := past.auths[DigestCredential(auth.token) := auth])
    case Login(commit, _, _) =>
      past.(consents := past.consents[DigestCredential(commit.consent.token)
                                      := ConsentEntry(commit.consent, commit.transaction)])
    case Decide(commit, _, _) =>
      if commit.decision == Approve
      then past.(codes := past.codes[commit.code.digest := CodeEntry(commit.code, commit.consent)])
      else past
    case Exchange(commit, _, _) =>
      if commit.refresh.None? then past
      else
        var g := commit.refresh.value;
        past.(families := past.families[g.familyID := Family(commit.code, [g.digest])],
              grants := past.grants[g.digest := g])
    case Rotate(rotation, _, _) =>
      var g := rotation.successor;
      if g.familyID !in past.families then past
      else
        var f := past.families[g.familyID];
        past.(families := past.families[g.familyID := f.(chain := f.chain + [g.digest])],
              grants := past.grants[g.digest := g])
    case _ => past
  }

  ghost function Next(w: World, e: Event, policy: StatePolicy): World {
    var (store, outcome) := Apply(w.store, e, policy);
    World(store, if outcome.Ok? then Record(w.past, e) else w.past, TimeAfter(e, w.now))
  }

  /**
   What a run assumes of its callers: the clock does not go back and never shows the zero
   time, and secrets that get stored were never stored before.
   */
  ghost predicate Enabled(w: World, e: Event, policy: StatePolicy) {
    var ok := Apply(w.store, e, policy).1.Ok?;
    match e
    case Register(_, t) => w.now <= t
    case Touch(_, _) => true
    case Create(auth, t) =>
      && w.now <= t
      && (ok ==> DigestCredential(auth.token) !in w.past.auths)
    case Login(commit, t, now) =>
      w.now <= t <= now && (ok ==> DigestCredential(commit.consent.token) !in w.past.consents)
    case Decide(commit, t, now) =>
      w.now <= t <= now && (ok && commit.decision == Approve ==> commit.code.digest !in w.past.codes)
    case Exchange(commit, t, now) =>
      && w.now <= t <= now
      && (ok && commit.refresh.Some? ==>
            commit.refresh.value.digest !in w.past.grants && commit.refresh.value.familyID !in w.past.families)
    case Rotate(rotation, t, now) =>
      w.now <= t <= now && (ok ==> rotation.successor.digest !in w.past.grants)
    case Revoke(_, at) => at != ZERO_TIME
    case Sweep(t) => w.now <= t
  }

  ghost function Run(w: World, es: seq<Event>, policy: StatePolicy): World
    decreases |es|
  {
    if es == [] then w else Run(Next(w, es[0], policy), es[1..], policy)
  }

  ghost predicate Legal(w: World, es: seq<Event>, policy: StatePolicy)
    decreases |es|
  {
    es == [] || (Enabled(w, es[0], policy) && Legal(Next(w, es[0], policy), es[1..], policy))
  }

  ghost function Start(now: Time): World {
    World(EMPTY, Past(map[], map[], map[], map[], map[]), now)
  }

  // -------------------------------------------------------------------------
  // The invariant
  // -------------------------------------------------------------------------

  /** What a login, an approval, an exchange and a rotation carry over from their predecessor. */
  predicate LoginBound(a: Authorization, c: Consent) {
    && c.client.id == a.clientID && c.client.redirectURI == a.redirectURI && c.state == a.state
    && c.challenge == a.challenge && c.resource == a.resource
    && c.principal.subject != "" && IsSubsetOf(c.allowedScopes, a.requestedScopes)
  }

  predicate ConsentBound(c: Consent, k: Code) {
    && k.clientID == c.client.id && k.redirectURI == c.client.redirectURI && k.state == c.state
    && k.challenge == c.challenge && k.resource == c.resource && k.principal == c.principal
    && IsSubsetOf(k.scopes, c.allowedScopes) && k.authorizationEnds == c.authorizationEnds
  }

  predicate ExchangeBound(k: Code, g: Grant) {
    && g.generation == 0 && g.clientID == k.clientID && g.principal == k.principal
    && g.resource == k.resource && g.scopes == k.scopes && g.expiresAt == k.authorizationEnds
  }

  /** What every member of a family shares with its first grant. */
  predicate SameFamily(g: Grant, root: Grant) {
    && g.familyID == root.familyID && g.clientID == root.clientID
    && g.principal.subject == root.principal.subject
    && g.resource == root.resource && g.expiresAt == root.expiresAt
  }

  /** A transaction without its mark and without its token, which only the memory store keeps. */
  function AuthCore(a: Authorization): Authorization {
    a.(token := "", consumedAt := ZERO_TIME)
  }

  function ConsentCore(c: Consent): Consent {
    c.(token := "", consumedAt := ZERO_TIME)
  }

  ghost predicate AuthsKnown(rows: Auths, past: Auths) {
    forall d | d in rows :: d in past && AuthCore(rows[d]) == AuthCore(past[d])
  }

  ghost predicate ConsentsKnown(rows: Consents, past: Sessions) {
    forall d | d in rows ::
      d in past && ConsentCore(rows[d]) == ConsentCore(past[d].session)
  }

  ghost predicate CodesKnown(rows: Codes, past: Records) {
    forall d | d in rows ::
      d in past && rows[d].(consumedAt := ZERO_TIME) == past[d].record.(consumedAt := ZERO_TIME)
  }

  /** A transaction with a consent is spent, and it has only that one. */
  ghost predicate TransactionsSpent(rows: Auths, auths: Auths, consents: Sessions) {
    && (forall k | k in consents ::
          && consents[k].transaction in auths
          && LoginBound(auths[consents[k].transaction], consents[k].session)
          && (consents[k].transaction in rows ==> rows[consents[k].transaction].consumedAt != ZERO_TIME))
    && (forall k, l | k in consents && l in consents && consents[k].transaction == consents[l].transaction :: k == l)
  }

  ghost predicate ConsentsSpent(rows: Consents, consents: Sessions, codes: Records) {
    && (forall k | k in codes ::
          && codes[k].consent in consents
          && ConsentBound(consents[codes[k].consent].session, codes[k].record)
          && (codes[k].consent in rows ==> rows[codes[k].consent].consumedAt != ZERO_TIME))
    && (forall k, l | k in codes && l in codes && codes[k].consent == codes[l].consent :: k == l)
  }

  ghost predicate CodesSpent(rows: Codes, codes: Records, families: Families, grants: Grants) {
    && (forall f | f in families ::
          && families[f].code in codes
          && families[f].chain != [] && families[f].chain[0] in grants
          && ExchangeBound(codes[families[f].code].record, grants[families[f].chain[0]])
          && (families[f].code in rows ==> rows[families[f].code].consumedAt != ZERO_TIME))
    && (forall f, g | f in families && g in families && families[f].code == families[g].code :: f == g)
  }

  /** Position in the chain is generation. */
  ghost predicate Chained(families: Families, grants: Grants) {
    && (forall f, i | f in families && 0 <= i < |families[f].chain| ::
          && families[f].chain[i] in grants
          && grants[families[f].chain[i]].familyID == f
          && grants[families[f].chain[i]].generation == i)
    && (forall d | d in grants ::
          && grants[d].digest == d && grants[d].Active()
          && grants[d].familyID in families
          && grants[d].generation < |families[grants[d].familyID].chain|
          && families[grants[d].familyID].chain[grants[d].generation] == d)
  }

  ghost predicate Related(grants: Grants) {
    forall d, e | d in grants && e in grants && grants[d].familyID == grants[e].familyID ::
      && SameFamily(grants[d], grants[e])
      && (grants[d].generation <= grants[e].generation ==> Elements(grants[e].scopes) <= Elements(grants[d].scopes))
  }

  ghost predicate GenerationsBounded(grants: Grants, limit: int) {
    forall d | d in grants :: grants[d].generation < limit
  }

  /** A stored grant is its inserted record, and is spent exactly when it has a successor. */
  ghost predicate GrantsKnown(rows: Grants, families: Families, grants: Grants) {
    forall d | d in rows ::
      && d in grants
      && rows[d].(consumedAt := ZERO_TIME, revokedAt := ZERO_TIME) == grants[d]
      && grants[d].familyID in families
      && (rows[d].consumedAt != ZERO_TIME <==> grants[d].generation + 1 < |families[grants[d].familyID].chain|)
  }

  /** Families are stored whole and revoked whole. */
  ghost predicate WholeFamilies(rows: Grants, grants: Grants) {
    forall d, e | d in rows && e in grants && grants[e].familyID == rows[d].familyID ::
      e in rows && (rows[d].revokedAt == ZERO_TIME <==> rows[e].revokedAt == ZERO_TIME)
  }

  ghost predicate Retained(rows: Grants, grants: Grants, now: Time) {
    forall d | d in grants && grants[d].expiresAt > now :: d in rows
  }

  ghost predicate FamiliesInv(families: Families, grants: Grants, limit: int) {
    Chained(families, grants) && Related(grants) && GenerationsBounded(grants, limit)
  }

  ghost predicate RowsInv(rows: Grants, families: Families, grants: Grants, now: Time) {
    GrantsKnown(rows, families, grants) && WholeFamilies(rows, grants) && Retained(rows, grants, now)
  }

  ghost predicate CredentialInv(s: State, past: Past) {
    && AuthsKnown(s.authorizations, past.auths)
    && ConsentsKnown(s.consents, past.consents)
    && CodesKnown(s.codes, past.codes)
    && TransactionsSpent(s.authorizations, past.auths, past.consents)
    && ConsentsSpent(s.consents, past.consents, past.codes)
    && CodesSpent(s.codes, past.codes, past.families, past.grants)
  }

  ghost predicate Inv(w: World, policy: StatePolicy) {
    && w.now > ZERO_TIME
    && CredentialInv(w.store, w.past)
    && FamiliesInv(w.past.families, w.past.grants, policy.capacity.maxRefreshGenerations)
    && RowsInv(w.store.refresh, w.past.families, w.past.grants, w.now)
    && |ActiveGrants(w.store.refresh)| <= policy.capacity.maxRefreshGrants
    && |w.store.clients| <= policy.registration.maxClients
  }

  // -------------------------------------------------------------------------
  // Pruning, ageing, revoking and evicting keep it
  // -------------------------------------------------------------------------

  /** A prune drops only rows of families that have expired, and those as a whole. */
  lemma PrunedRows(rows: Grants, t: Time)
    ensures var kept := PruneRefresh(rows, t);
            && (forall d | d in kept :: d in rows && kept[d] == rows[d])
            && (forall d | d in rows && rows[d].expiresAt > t :: d in kept)
            && (forall d, e | d in kept && e in rows && rows[e].familyID == kept[d].familyID :: e in kept)
  {
  }

  lemma PruneKeepsRows(rows: Grants, families: Families, grants: Grants, now: Time, t: Time)
    requires ZERO_TIME < now <= t && RowsInv(rows, families, grants, now)
    ensures RowsInv(PruneRefresh(rows, t), families, grants, t)
  {
    hide PruneRefresh;
    PrunedRows(rows, t);
    assert GrantsKnown(PruneRefresh(rows, t), families, grants);
    PruneKeepsWhole(rows, PruneRefresh(rows, t), families, grants);
  }

  lemma PruneKeepsWhole(rows: Grants, kept: Grants, families: Families, grants: Grants)
    requires WholeFamilies(rows, grants) && GrantsKnown(rows, families, grants)
    requires forall d | d in kept :: d in rows && kept[d] == rows[d]
    requires forall d, e | d in kept && e in rows && rows[e].familyID == kept[d].familyID :: e in kept
    ensures WholeFamilies(kept, grants)
  {
    forall d, e | d in kept && e in grants && grants[e].familyID == kept[d].familyID
      ensures e in kept && (kept[d].revokedAt == ZERO_TIME <==> kept[e].revokedAt == ZERO_TIME)
    {
      assert e in rows && rows[e].familyID == grants[e].familyID;
    }
  }

  /** Dropping rows keeps what is known of the rest. */
  lemma FewerAuths(rows: Auths, fewer: Auths, auths: Auths, consents: Sessions)
    requires AuthsKnown(rows, auths) && TransactionsSpent(rows, auths, consents)
    requires forall k | k in fewer :: k in rows && fewer[k] == rows[k]
    ensures AuthsKnown(fewer, auths) && TransactionsSpent(fewer, auths, consents)
  {
    hide LoginBound;
  }

  lemma FewerConsents(rows: Consents, fewer: Consents, consents: Sessions, codes: Records)
    requires ConsentsKnown(rows, consents) && ConsentsSpent(rows, consents, codes)
    requires forall k | k in fewer :: k in rows && fewer[k] == rows[k]
    ensures ConsentsKnown(fewer, consents) && ConsentsSpent(fewer, consents, codes)
  {
    hide ConsentBound;
  }

  lemma FewerCodes(rows: Codes, fewer: Codes, codes: Records, families: Families, grants: Grants)
    requires CodesKnown(rows, codes) && CodesSpent(rows, codes, families, grants)
    requires forall k | k in fewer :: k in rows && fewer[k] == rows[k]
    ensures CodesKnown(fewer, codes) && CodesSpent(fewer, codes, families, grants)
  {
    hide ExchangeBound;
  }

  lemma PruneKeepsCredentials(s: State, past: Past, t: Time)
    requires CredentialInv(s, past)
    ensures CredentialInv(Prune(s, t), past)
  {
    hide AuthsKnown, ConsentsKnown, CodesKnown, TransactionsSpent, ConsentsSpent, CodesSpent, PruneRefresh;
    FewerAuths(s.authorizations, PruneAuthorizations(s.authorizations, t), past.auths, past.consents);
    FewerConsents(s.consents, PruneConsents(s.consents, t), past.consents, past.codes);
    FewerCodes(s.codes, PruneCodes(s.codes, t), past.codes, past.families, past.grants);
  }

  lemma FewerActive(rows: Grants, t: Time)
    ensures |ActiveGrants(PruneRefresh(rows, t))| <= |ActiveGrants(rows)|
  {
    hide FamilyLive;
    SubsetCount(ActiveGrants(PruneRefresh(rows, t)), ActiveGrants(rows));
  }

  lemma PruneKeeps(w: World, t: Time, policy: StatePolicy)
    requires Inv(w, policy) && w.now <= t
    ensures Inv(World(Prune(w.store, t), w.past, t), policy)
  {
    hide FamiliesInv, RowsInv, CredentialInv, PruneRefresh, ActiveGrants;
    PruneKeepsRows(w.store.refresh, w.past.families, w.past.grants, w.now, t);
    PruneKeepsCredentials(w.store, w.past, t);
    FewerActive(w.store.refresh, t);
  }

  lemma AgeKeeps(w: World, t: Time, policy: StatePolicy)
    requires Inv(w, policy) && w.now <= t
    ensures Inv(w.(now := t), policy)
  {
    hide CredentialInv, Chained, Related, GrantsKnown, WholeFamilies;
  }

  lemma RevokeKeepsRows(rows: Grants, families: Families, grants: Grants, now: Time, family: RefreshFamilyID, at: Time)
    requires at != ZERO_TIME && RowsInv(rows, families, grants, now)
    ensures RowsInv(RevokeRows(rows, family, at), families, grants, now)
  {
    hide GrantsKnown, WholeFamilies, RevokeRows;
    RevokeKeepsKnown(rows, families, grants, family, at);
    RevokeKeepsWhole(rows, families, grants, family, at);
    RevokeKeepsKeys(rows, family, at);
  }

  lemma RevokeKeepsKeys(rows: Grants, family: RefreshFamilyID, at: Time)
    ensures RevokeRows(rows, family, at).Keys == rows.Keys
  {
  }

  lemma RevokeKeepsKnown(rows: Grants, families: Families, grants: Grants, family: RefreshFamilyID, at: Time)
    requires GrantsKnown(rows, families, grants)
    ensures GrantsKnown(RevokeRows(rows, family, at), families, grants)
  {
  }

  lemma RevokeKeepsWhole(rows: Grants, families: Families, grants: Grants, family: RefreshFamilyID, at: Time)
    requires at != ZERO_TIME && GrantsKnown(rows, families, grants) && WholeFamilies(rows, grants)
    ensures WholeFamilies(RevokeRows(rows, family, at), grants)
  {
    var after := RevokeRows(rows, family, at);
    forall d, e | d in after && e in grants && grants[e].familyID == after[d].familyID
      ensures e in after && (after[d].revokedAt == ZERO_TIME <==> after[e].revokedAt == ZERO_TIME)
    {
      assert d in rows && e in rows && rows[e].familyID == rows[d].familyID;
    }
  }

  lemma RevokedIsInactive(rows: Grants, family: RefreshFamilyID, at: Time)
    requires at != ZERO_TIME
    ensures ActiveGrants(RevokeRows(rows, family, at)) <= ActiveGrants(rows)
    ensures |ActiveGrants(RevokeRows(rows, family, at))| <= |ActiveGrants(rows)|
  {
    SubsetCount(ActiveGrants(RevokeRows(rows, family, at)), ActiveGrants(rows));
  }

  lemma RevokeKeeps(w: World, family: RefreshFamilyID, at: Time, policy: StatePolicy)
    requires Inv(w, policy) && at != ZERO_TIME
    ensures Inv(w.(store := RevokeFamily(w.store, family, at)), policy)
  {
    hide AuthsKnown, ConsentsKnown, CodesKnown, TransactionsSpent, ConsentsSpent, CodesSpent, FamiliesInv, RowsInv;
    hide ActiveGrants;
    hide RevokeRows;
    RevokeKeepsRows(w.store.refresh, w.past.families, w.past.grants, w.now, family, at);
    RevokedIsInactive(w.store.refresh, family, at);
  }

  lemma EvictShrinks(s: State, now: Time, policy: RegistrationPolicy)
    ensures |Evict(s, policy, now).clients| <= |s.clients|
  {
    var e := Evict(s, policy, now);
    SubsetCount(e.clients.Keys, s.clients.Keys);
    assert |e.clients| == |e.clients.Keys| && |s.clients| == |s.clients.Keys|;
  }

  lemma RegisterKeepsParts(w: World, client: Client, policy: StatePolicy)
    requires CredentialInv(w.store, w.past)
    ensures CredentialInv(Apply(w.store, Register(client, w.now), policy).0, w.past)
  {
    hide AuthsKnown, ConsentsKnown, CodesKnown, TransactionsSpent, ConsentsSpent, CodesSpent, Evictable;
  }

  lemma RegisterKeeps(w: World, client: Client, policy: StatePolicy)
    requires Inv(w, policy)
    ensures Inv(w.(store := Apply(w.store, Register(client, w.now), policy).0), policy)
  {
    hide CredentialInv, FamiliesInv, RowsInv, ActiveGrants;
    RegisterKeepsParts(w, client, policy);
    EvictShrinks(w.store, w.now, policy.registration);
    hide Evict;
  }

  // -------------------------------------------------------------------------
  // What the validators accept, exactly
  // -------------------------------------------------------------------------

  /** A consent is accepted exactly when it is bound to a live, unspent transaction and has not run out. */
  lemma LoginVerdict(auth: Authorization, consent: Consent, now: Time)
    ensures ValidateLoginCommit(auth, consent, now) == Ok
            <==> auth.consumedAt == ZERO_TIME && now < auth.expiresAt && LoginBound(auth, consent)
                 && now < consent.authorizationEnds && now < consent.expiresAt
  {
    hide IsSubsetOf;
  }

  lemma ConsentVerdict(consent: Consent, commit: ConsentCommit, now: Time)
    ensures ValidateConsentCommit(consent, commit, now) == Ok
            <==> && consent.consumedAt == ZERO_TIME && now < consent.expiresAt
                 && (|| (commit.decision == Deny && commit.code.digest == ZeroDigest)
                     || (commit.decision == Approve && commit.code.digest != ZeroDigest
                         && ConsentBound(consent, commit.code) && now < commit.code.expiresAt))
  {
    hide IsSubsetOf;
  }

  /** The grant's scopes are the code's: equal texts are equal sets. */
  lemma ExchangeVerdict(code: Code, commit: ExchangeCommit, now: Time)
    ensures ValidateCodeExchangeCommit(code, commit, now) == Ok
            <==> && code.consumedAt == ZERO_TIME && now < code.expiresAt && commit.refresh.Some?
                 && var g := commit.refresh.value;
                 && g.digest != ZeroDigest && g.familyID != "" && ExchangeBound(code, g)
                 && g.Active() && now < g.expiresAt
  {
    hide Text;
    if commit.refresh.Some? {
      TextInjective(commit.refresh.value.scopes, code.scopes);
    }
  }

  lemma RotationVerdict(current: Grant, rotation: Rotation, now: Time)
    ensures ValidateRefreshRotation(current, rotation, now) == Ok
            <==> var next := rotation.successor;
                 && current.familyID == rotation.familyID && current.generation == rotation.generation
                 && current.Active() && now < current.expiresAt
                 && next.digest != ZeroDigest && SameFamily(next, current) && next.Active()
                 && next.generation == Increment(current.generation) && IsSubsetOf(next.scopes, current.scopes)
  {
    hide IsSubsetOf;
  }

  // -------------------------------------------------------------------------
  // What an accepted commit has checked and done
  // -------------------------------------------------------------------------

  lemma LoginAccepted(p: State, commit: LoginCommit, policy: StatePolicy, now: Time)
    requires CommitLogin(p, commit, policy, now).1.Ok?
    ensures commit.transaction in p.authorizations
    ensures var auth := p.authorizations[commit.transaction];
            && auth.consumedAt == ZERO_TIME && auth.expiresAt > now && LoginBound(auth, commit.consent)
            && commit.consent.client.id == auth.clientID
            && commit.consent.expiresAt > now && commit.consent.authorizationEnds > now
            && CommitLogin(p, commit, policy, now).0
               == p.(authorizations := p.authorizations[commit.transaction := auth.(consumedAt := now)],
                     consents := p.consents[DigestCredential(commit.consent.token) := commit.consent])
  {
    hide ValidateLoginCommit;
    LoginVerdict(p.authorizations[commit.transaction], commit.consent, now);
  }

  lemma ConsentAccepted(p: State, commit: ConsentCommit, policy: StatePolicy, now: Time)
    requires CommitConsent(p, commit, policy, now).1.Ok?
    ensures commit.consent in p.consents
    ensures var consent := p.consents[commit.consent];
            && consent.consumedAt == ZERO_TIME && consent.expiresAt > now
            && (commit.decision == Approve ==>
                  ConsentBound(consent, commit.code) && commit.code.expiresAt > now
                  && commit.code.clientID == consent.client.id)
            && CommitConsent(p, commit, policy, now).0
               == p.(consents := p.consents[commit.consent := consent.(consumedAt := now)],
                     codes := if commit.decision == Approve
                              then p.codes[commit.code.digest := commit.code] else p.codes)
  {
    hide ValidateConsentCommit;
    ConsentVerdict(p.consents[commit.consent], commit, now);
  }

  lemma ExchangeAccepted(p: State, commit: ExchangeCommit, policy: StatePolicy, now: Time)
    requires CommitCodeExchange(p, commit, policy, now).1.Ok?
    ensures commit.code in p.codes && commit.refresh.Some?
    ensures var code, g := p.codes[commit.code], commit.refresh.value;
            && code.consumedAt == ZERO_TIME && code.expiresAt > now && ExchangeBound(code, g)
            && g.generation == 0 && g.clientID == code.clientID && g.Active() && g.expiresAt > now && g.familyID != ""
            && |ActiveGrants(p.refresh)| < policy.capacity.maxRefreshGrants
            && CommitCodeExchange(p, commit, policy, now).0
               == p.(codes := p.codes[commit.code := code.(consumedAt := now)],
                     refresh := p.refresh[g.digest := g])
  {
    hide ValidateCodeExchangeCommit;
    ExchangeVerdict(p.codes[commit.code], commit, now);
  }

  lemma RotationAccepted(p: State, rotation: Rotation, policy: StatePolicy, now: Time)
    requires CommitRefreshRotation(p, rotation, policy, now).1.Ok?
    ensures rotation.current in p.refresh
    ensures var current, next := p.refresh[rotation.current], rotation.successor;
            && current.familyID == rotation.familyID && current.generation == rotation.generation
            && current.Active() && current.expiresAt > now && SameFamily(next, current) && next.Active()
            && next.generation == Increment(current.generation)
            && next.generation < policy.capacity.maxRefreshGenerations
            && IsSubsetOf(next.scopes, current.scopes) && next.digest !in p.refresh
            && CommitRefreshRotation(p, rotation, policy, now).0
               == p.(refresh := p.refresh[rotation.current := current.(consumedAt := now)][next.digest := next])
  {
    hide ValidateRefreshRotation;
    RotationVerdict(p.refresh[rotation.current], rotation, now);
  }

  // -------------------------------------------------------------------------
  // The commits keep it, one at a time, on a pruned world
  // -------------------------------------------------------------------------

  /** A transaction that was never stored before. */
  lemma AddAuth(rows: Auths, auths: Auths, consents: Sessions, auth: Authorization)
    requires AuthsKnown(rows, auths) && TransactionsSpent(rows, auths, consents)
    requires DigestCredential(auth.token) !in auths
    ensures AuthsKnown(rows[DigestCredential(auth.token) := auth], auths[DigestCredential(auth.token) := auth])
    ensures TransactionsSpent(rows[DigestCredential(auth.token) := auth], auths[DigestCredential(auth.token) := auth],
                              consents)
  {
    hide LoginBound;
  }

  lemma CreateKeeps(w: World, auth: Authorization, policy: StatePolicy)
    requires Inv(w, policy)
    requires CreateAuthorization(w.store, auth, policy).1.Ok?
    requires DigestCredential(auth.token) !in w.past.auths
    ensures Inv(World(CreateAuthorization(w.store, auth, policy).0, Record(w.past, Create(auth, w.now)), w.now), policy)
  {
    hide AuthsKnown, ConsentsKnown, CodesKnown, TransactionsSpent, ConsentsSpent, CodesSpent, FamiliesInv, RowsInv;
    hide ActiveGrants;
    AddAuth(w.store.authorizations, w.past.auths, w.past.consents, auth);
  }

  /** Spending a transaction on its first consent. */
  lemma SpendTransaction(rows: Auths, auths: Auths, consents: Sessions,
                         tx: CredentialDigest, digest: CredentialDigest, session: Consent, now: Time)
    requires AuthsKnown(rows, auths) && TransactionsSpent(rows, auths, consents)
    requires tx in rows && rows[tx].consumedAt == ZERO_TIME && now != ZERO_TIME
    requires LoginBound(rows[tx], session) && digest !in consents
    ensures AuthsKnown(rows[tx := rows[tx].(consumedAt := now)], auths)
    ensures TransactionsSpent(rows[tx := rows[tx].(consumedAt := now)], auths,
                              consents[digest := ConsentEntry(session, tx)])
  {
    hide LoginBound;
    LoginBoundAgain(rows[tx], auths[tx], session);
  }

  /** Neither the mark nor the token of a transaction matters to what a login carries over from it. */
  lemma LoginBoundAgain(a: Authorization, b: Authorization, c: Consent)
    requires AuthCore(a) == AuthCore(b) && LoginBound(a, c)
    ensures LoginBound(b, c)
  {
    hide IsSubsetOf;
    assert AuthCore(a).requestedScopes == AuthCore(b).requestedScopes;
  }

  lemma AddConsent(rows: Consents, consents: Sessions, codes: Records, digest: CredentialDigest, entry: ConsentEntry)
    requires ConsentsKnown(rows, consents) && ConsentsSpent(rows, consents, codes) && digest !in consents
    ensures ConsentsKnown(rows[digest := entry.session], consents[digest := entry])
    ensures ConsentsSpent(rows[digest := entry.session], consents[digest := entry], codes)
  {
    hide ConsentBound;
  }

  lemma LoginKeeps(w: World, commit: LoginCommit, policy: StatePolicy)
    requires Inv(w, policy)
    requires CommitLogin(w.store, commit, policy, w.now).1.Ok?
    requires DigestCredential(commit.consent.token) !in w.past.consents
    ensures Inv(World(CommitLogin(w.store, commit, policy, w.now).0,
                      Record(w.past, Login(commit, w.now, w.now)), w.now), policy)
  {
    hide AuthsKnown, ConsentsKnown, CodesKnown, TransactionsSpent, ConsentsSpent, CodesSpent, FamiliesInv, RowsInv;
    hide ActiveGrants;
    hide LoginBound;
    LoginAccepted(w.store, commit, policy, w.now);
    hide CommitLogin;
    var digest := DigestCredential(commit.consent.token);
    SpendTransaction(w.store.authorizations, w.past.auths, w.past.consents, commit.transaction, digest, commit.consent,
                     w.now);
    AddConsent(w.store.consents, w.past.consents, w.past.codes, digest,
               ConsentEntry(commit.consent, commit.transaction));
  }

  /** Spending a consent, with no code or with its first. */
  lemma SpendConsent(rows: Consents, consents: Sessions, codes: Records, from: CredentialDigest, now: Time)
    requires ConsentsKnown(rows, consents) && ConsentsSpent(rows, consents, codes)
    requires from in rows && rows[from].consumedAt == ZERO_TIME && now != ZERO_TIME
    ensures ConsentsKnown(rows[from := rows[from].(consumedAt := now)], consents)
    ensures ConsentsSpent(rows[from := rows[from].(consumedAt := now)], consents, codes)
  {
    hide ConsentBound;
  }

  lemma ApproveConsent(rows: Consents, consents: Sessions, codes: Records,
                       from: CredentialDigest, now: Time, digest: CredentialDigest, record: Code)
    requires ConsentsKnown(rows, consents) && ConsentsSpent(rows, consents, codes)
    requires from in rows && rows[from].consumedAt == ZERO_TIME && now != ZERO_TIME
    requires ConsentBound(rows[from], record) && digest !in codes
    ensures ConsentsSpent(rows[from := rows[from].(consumedAt := now)], consents,
                          codes[digest := CodeEntry(record, from)])
  {
    hide ConsentBound;
    ConsentBoundAgain(rows[from], consents[from].session, record);
  }

  lemma ConsentBoundAgain(a: Consent, b: Consent, k: Code)
    requires ConsentCore(a) == ConsentCore(b) && ConsentBound(a, k)
    ensures ConsentBound(b, k)
  {
    hide IsSubsetOf;
    assert ConsentCore(a).allowedScopes == ConsentCore(b).allowedScopes;
  }

  lemma AddCode(rows: Codes, codes: Records, families: Families, grants: Grants, digest: CredentialDigest,
                entry: CodeEntry)
    requires CodesKnown(rows, codes) && CodesSpent(rows, codes, families, grants) && digest !in codes
    ensures CodesKnown(rows[digest := entry.record], codes[digest := entry])
    ensures CodesSpent(rows[digest := entry.record], codes[digest := entry], families, grants)
  {
    hide ExchangeBound;
  }

  lemma DecideKeeps(w: World, commit: ConsentCommit, policy: StatePolicy)
    requires Inv(w, policy)
    requires CommitConsent(w.store, commit, policy, w.now).1.Ok?
    requires commit.decision == Approve ==> commit.code.digest !in w.past.codes
    ensures Inv(World(CommitConsent(w.store, commit, policy, w.now).0,
                      Record(w.past, Decide(commit, w.now, w.now)), w.now), policy)
  {
    hide AuthsKnown, ConsentsKnown, CodesKnown, TransactionsSpent, ConsentsSpent, CodesSpent, FamiliesInv, RowsInv;
    hide ActiveGrants;
    hide ConsentBound;
    ConsentAccepted(w.store, commit, policy, w.now);
    hide CommitConsent;
    SpendConsent(w.store.consents, w.past.consents, w.past.codes, commit.consent, w.now);
    if commit.decision == Approve {
      ApproveConsent(w.store.consents, w.past.consents, w.past.codes, commit.consent, w.now,
                     commit.code.digest, commit.code);
      AddCode(w.store.codes, w.past.codes, w.past.families, w.past.grants, commit.code.digest,
              CodeEntry(commit.code, commit.consent));
    }
  }

  /** Spending a code on its first family. */
  lemma SpendCode(rows: Codes, codes: Records, families: Families, grants: Grants,
                  code: CredentialDigest, g: Grant, now: Time)
    requires CodesKnown(rows, codes) && CodesSpent(rows, codes, families, grants)
    requires code in rows && rows[code].consumedAt == ZERO_TIME && now != ZERO_TIME
    requires ExchangeBound(rows[code], g) && g.familyID !in families && g.digest !in grants
    ensures CodesKnown(rows[code := rows[code].(consumedAt := now)], codes)
    ensures CodesSpent(rows[code := rows[code].(consumedAt := now)], codes,
                       families[g.familyID := Family(code, [g.digest])], grants[g.digest := g])
  {
    hide ExchangeBound;
    ExchangeBoundAgain(rows[code], codes[code].record, g);
  }

  lemma ExchangeBoundAgain(a: Code, b: Code, g: Grant)
    requires a.(consumedAt := ZERO_TIME) == b.(consumedAt := ZERO_TIME) && ExchangeBound(a, g)
    ensures ExchangeBound(b, g)
  {
    assert a.(consumedAt := ZERO_TIME).scopes == b.(consumedAt := ZERO_TIME).scopes;
  }

  /** A new family of one grant. */
  lemma ExchangeKeepsFamilies(families: Families, grants: Grants, limit: int, code: CredentialDigest, g: Grant)
    requires FamiliesInv(families, grants, limit) && limit > 0
    requires g.Active() && g.generation == 0
    requires g.digest !in grants && g.familyID !in families
    ensures FamiliesInv(families[g.familyID := Family(code, [g.digest])], grants[g.digest := g], limit)
  {
  }

  lemma ExchangeKeepsRows(rows: Grants, families: Families, grants: Grants, limit: int, now: Time,
                          code: CredentialDigest, g: Grant)
    requires FamiliesInv(families, grants, limit) && RowsInv(rows, families, grants, now)
    requires g.Active() && g.generation == 0
    requires g.digest !in grants && g.familyID !in families
    ensures RowsInv(rows[g.digest := g], families[g.familyID := Family(code, [g.digest])], grants[g.digest := g], now)
  {
  }

  lemma ExchangeKeeps(w: World, commit: ExchangeCommit, policy: StatePolicy)
    requires Inv(w, policy) && ValidPolicy(policy)
    requires CommitCodeExchange(w.store, commit, policy, w.now).1.Ok? && commit.refresh.Some?
    requires commit.refresh.value.digest !in w.past.grants && commit.refresh.value.familyID !in w.past.families
    ensures Inv(World(CommitCodeExchange(w.store, commit, policy, w.now).0,
                      Record(w.past, Exchange(commit, w.now, w.now)), w.now), policy)
  {
    hide AuthsKnown, ConsentsKnown, CodesKnown, TransactionsSpent, ConsentsSpent, CodesSpent, FamiliesInv, RowsInv;
    hide ActiveGrants;
    hide ExchangeBound;
    ExchangeAccepted(w.store, commit, policy, w.now);
    hide CommitCodeExchange;
    var g := commit.refresh.value;
    var rows := w.store.refresh;
    SpendCode(w.store.codes, w.past.codes, w.past.families, w.past.grants, commit.code, g, w.now);
    ExchangeKeepsFamilies(w.past.families, w.past.grants, policy.capacity.maxRefreshGenerations, commit.code, g);
    ExchangeKeepsRows(rows, w.past.families, w.past.grants, policy.capacity.maxRefreshGenerations, w.now,
                      commit.code, g);
    AddActive(rows, g);
  }

  lemma AddActive(rows: Grants, g: Grant)
    ensures |ActiveGrants(rows[g.digest := g])| <= |ActiveGrants(rows)| + 1
  {
    assert ActiveGrants(rows[g.digest := g]) <= ActiveGrants(rows) + {g.digest};
    SubsetCount(ActiveGrants(rows[g.digest := g]), ActiveGrants(rows) + {g.digest});
  }

  // -------------------------------------------------------------------------
  // Rotation
  // -------------------------------------------------------------------------

  /** An unspent grant is the last of its chain, so its successor extends the chain by one. */
  lemma RotateKeepsFamilies(families: Families, grants: Grants, limit: int, d: CredentialDigest, next: Grant)
    requires FamiliesInv(families, grants, limit)
    requires d in grants && grants[d].familyID in families
    requires grants[d].generation + 1 == |families[grants[d].familyID].chain|
    requires next.generation == grants[d].generation + 1 && next.generation < limit
    requires SameFamily(next, grants[d]) && next.Active() && IsSubsetOf(next.scopes, grants[d].scopes)
    requires next.digest !in grants
    ensures var f := families[next.familyID];
            FamiliesInv(families[next.familyID := f.(chain := f.chain + [next.digest])],
                        grants[next.digest := next], limit)
  {
    var f := families[next.familyID];
    var families' := families[next.familyID := f.(chain := f.chain + [next.digest])];
    var grants' := grants[next.digest := next];
    RotateKeepsChains(families, grants, next);
    hide Chained;
    forall e | e in grants && grants[e].familyID == next.familyID
      ensures SameFamily(next, grants[e]) && SameFamily(grants[e], next)
      ensures grants[e].generation < next.generation && Elements(next.scopes) <= Elements(grants[e].scopes)
    {
      ChainEnd(families, grants, d, e);
    }
    hide SameFamily;
    assert Related(grants');
  }

  lemma ChainEnd(families: Families, grants: Grants, d: CredentialDigest, e: CredentialDigest)
    requires Chained(families, grants)
    requires d in grants && e in grants && grants[e].familyID == grants[d].familyID
    requires grants[d].generation + 1 == |families[grants[d].familyID].chain|
    ensures grants[e].generation <= grants[d].generation
  {
  }

  lemma RotateKeepsChains(families: Families, grants: Grants, next: Grant)
    requires Chained(families, grants) && next.familyID in families && next.digest !in grants
    requires next.Active() && next.generation == |families[next.familyID].chain|
    ensures var f := families[next.familyID];
            Chained(families[next.familyID := f.(chain := f.chain + [next.digest])], grants[next.digest := next])
  {
  }

  lemma RotateKeepsRows(rows: Grants, families: Families, grants: Grants, now: Time, d: CredentialDigest, next: Grant)
    requires Chained(families, grants) && RowsInv(rows, families, grants, now)
    requires d in rows && rows[d].Active() && now != ZERO_TIME
    requires SameFamily(next, rows[d]) && next.Active() && next.generation == rows[d].generation + 1
    requires next.digest !in grants
    ensures var f := families[next.familyID];
            RowsInv(rows[d := rows[d].(consumedAt := now)][next.digest := next],
                    families[next.familyID := f.(chain := f.chain + [next.digest])],
                    grants[next.digest := next], now)
  {
    hide WholeFamilies, GrantsKnown, Chained;
    RotateKeepsKnown(rows, families, grants, now, d, next);
    RotateKeepsWhole(rows, families, grants, now, d, next);
  }

  lemma RotateKeepsKnown(rows: Grants, families: Families, grants: Grants, now: Time, d: CredentialDigest, next: Grant)
    requires Chained(families, grants) && GrantsKnown(rows, families, grants)
    requires d in rows && rows[d].Active() && now != ZERO_TIME
    requires SameFamily(next, rows[d]) && next.Active() && next.generation == rows[d].generation + 1
    requires next.digest !in grants
    ensures next.familyID in families
    ensures var f := families[next.familyID];
            GrantsKnown(rows[d := rows[d].(consumedAt := now)][next.digest := next],
                        families[next.familyID := f.(chain := f.chain + [next.digest])],
                        grants[next.digest := next])
  {
  }

  lemma RotateKeepsWhole(rows: Grants, families: Families, grants: Grants, now: Time, d: CredentialDigest, next: Grant)
    requires GrantsKnown(rows, families, grants) && WholeFamilies(rows, grants)
    requires d in rows && rows[d].Active() && SameFamily(next, rows[d]) && next.Active() && next.digest !in grants
    ensures WholeFamilies(rows[d := rows[d].(consumedAt := now)][next.digest := next], grants[next.digest := next])
  {
    var rows' := rows[d := rows[d].(consumedAt := now)][next.digest := next];
    var grants' := grants[next.digest := next];
    assert d in grants && grants[d].familyID == next.familyID;
    assert forall a | a in rows :: a in grants && grants[a].familyID == rows[a].familyID;
    hide GrantsKnown;
    forall a, b | a in rows' && b in grants' && grants'[b].familyID == rows'[a].familyID
      ensures b in rows' && (rows'[a].revokedAt == ZERO_TIME <==> rows'[b].revokedAt == ZERO_TIME)
    {
      if a != next.digest && b != next.digest {
        assert a in rows && b in grants;
      } else if b != next.digest {
        assert d in rows && b in grants && grants[b].familyID == rows[d].familyID;
      } else if a != next.digest {
        assert a in rows && d in grants && grants[d].familyID == rows[a].familyID;
      }
    }
  }

  /** Rotation moves one active grant: the predecessor leaves, the successor joins. */
  lemma RotateKeepsActive(rows: Grants, d: CredentialDigest, next: Grant, now: Time)
    requires d in rows && rows[d].Active() && next.Active() && next.digest !in rows && now != ZERO_TIME
    ensures |ActiveGrants(rows[d := rows[d].(consumedAt := now)][next.digest := next])| == |ActiveGrants(rows)|
  {
    ActiveAfterRotation(rows, d, next, now);
    hide ActiveGrants;
  }

  lemma ActiveAfterRotation(rows: Grants, d: CredentialDigest, next: Grant, now: Time)
    requires d in rows && rows[d].Active() && next.Active() && next.digest !in rows && now != ZERO_TIME
    ensures ActiveGrants(rows[d := rows[d].(consumedAt := now)][next.digest := next])
            == ActiveGrants(rows) - {d} + {next.digest}
    ensures d in ActiveGrants(rows) && next.digest !in ActiveGrants(rows)
  {
    var spent := rows[d := rows[d].(consumedAt := now)];
    assert ActiveGrants(spent) == ActiveGrants(rows) - {d};
    assert ActiveGrants(spent[next.digest := next]) == ActiveGrants(spent) + {next.digest};
  }

  lemma RotateKeepsCodes(rows: Codes, codes: Records, families: Families, grants: Grants, next: Grant)
    requires CodesSpent(rows, codes, families, grants) && next.familyID in families && next.digest !in grants
    ensures var f := families[next.familyID];
            CodesSpent(rows, codes, families[next.familyID := f.(chain := f.chain + [next.digest])],
                       grants[next.digest := next])
  {
    hide ExchangeBound;
  }

  /** The record of a stored, unspent grant, and its place at the end of the chain. */
  lemma ActiveIsLast(rows: Grants, families: Families, grants: Grants, limit: int, now: Time, d: CredentialDigest)
    requires FamiliesInv(families, grants, limit) && RowsInv(rows, families, grants, now)
    requires d in rows && rows[d].Active()
    ensures d in grants && grants[d] == rows[d] && rows[d].familyID in families && rows[d].generation < limit
    ensures rows[d].generation + 1 == |families[rows[d].familyID].chain|
  {
    assert grants[d].Active();
  }

  lemma RotateKeeps(w: World, rotation: Rotation, policy: StatePolicy)
    requires Inv(w, policy)
    requires CommitRefreshRotation(w.store, rotation, policy, w.now).1.Ok?
    requires rotation.successor.digest !in w.past.grants
    ensures Inv(World(CommitRefreshRotation(w.store, rotation, policy, w.now).0,
                      Record(w.past, Rotate(rotation, w.now, w.now)), w.now), policy)
    ensures |ActiveGrants(CommitRefreshRotation(w.store, rotation, policy, w.now).0.refresh)|
            == |ActiveGrants(w.store.refresh)|
  {
    hide AuthsKnown, ConsentsKnown, CodesKnown, TransactionsSpent, ConsentsSpent, CodesSpent, FamiliesInv, RowsInv;
    hide ActiveGrants;
    RotationAccepted(w.store, rotation, policy, w.now);
    hide CommitRefreshRotation;
    var rows, next, d := w.store.refresh, rotation.successor, rotation.current;
    ActiveIsLast(rows, w.past.families, w.past.grants, policy.capacity.maxRefreshGenerations, w.now, d);
    RotateKeepsFamilies(w.past.families, w.past.grants, policy.capacity.maxRefreshGenerations, d, next);
    RotateKeepsRowsOf(rows, w.past.families, w.past.grants, policy.capacity.maxRefreshGenerations, w.now, d, next);
    RotateKeepsActive(rows, d, next, w.now);
    RotateKeepsCodes(w.store.codes, w.past.codes, w.past.families, w.past.grants, next);
  }

  lemma RotateKeepsRowsOf(rows: Grants, families: Families, grants: Grants, limit: int, now: Time,
                          d: CredentialDigest, next: Grant)
    requires FamiliesInv(families, grants, limit) && RowsInv(rows, families, grants, now)
    requires d in rows && rows[d].Active() && now != ZERO_TIME
    requires SameFamily(next, rows[d]) && next.Active() && next.generation == rows[d].generation + 1
    requires next.digest !in grants
    ensures next.familyID in families
    ensures var f := families[next.familyID];
            RowsInv(rows[d := rows[d].(consumedAt := now)][next.digest := next],
                    families[next.familyID := f.(chain := f.chain + [next.digest])],
                    grants[next.digest := next], now)
  {
    ActiveIsLast(rows, families, grants, limit, now, d);
    RotateKeepsRows(rows, families, grants, now, d, next);
  }

  // -------------------------------------------------------------------------
  // Every step and every run keep it
  // -------------------------------------------------------------------------

  /** A commit is a prune, the wait until the second clock reading, and the commit proper. */
  ghost function Pruned(w: World, t: Time, now: Time): World {
    World(Prune(w.store, t), w.past, now)
  }

  lemma PrunedKeeps(w: World, t: Time, now: Time, policy: StatePolicy)
    requires Inv(w, policy) && w.now <= t <= now
    ensures Inv(Pruned(w, t, now), policy)
  {
    PruneKeeps(w, t, policy);
    AgeKeeps(World(Prune(w.store, t), w.past, t), now, policy);
  }

  /** A refused call leaves the pruned world, or that world with one family revoked. */
  lemma RefusalKeeps(w: World, e: Event, policy: StatePolicy)
    requires Inv(w, policy) && Enabled(w, e, policy) && Apply(w.store, e, policy).1.Err?
    requires !e.Register? && !e.Touch?
    ensures Inv(Next(w, e, policy), policy)
  {
    hide Inv, Prune, RevokeFamily, Apply, Record;
    RefusalChangesNothingLive(w.store, e, policy);
    match e
    case Create(_, t) => PrunedKeeps(w, t, t, policy);
    case Login(_, t, now) => PrunedKeeps(w, t, now, policy);
    case Decide(_, t, now) => PrunedKeeps(w, t, now, policy);
    case Exchange(_, t, now) => PrunedKeeps(w, t, now, policy);
    case Rotate(rotation, t, now) =>
      PrunedKeeps(w, t, now, policy);
      NowIsSet(Pruned(w, t, now), policy);
      RevokeKeeps(Pruned(w, t, now), rotation.familyID, now, policy);
    case Sweep(t) => PruneKeeps(w, t, policy);
    case Revoke(family, at) => RevokeKeeps(w, family, at, policy);
  }

  lemma PruneKeepsClients(s: State, t: Time)
    ensures Prune(s, t).clients == s.clients
  {
  }

  lemma NowIsSet(w: World, policy: StatePolicy)
    requires Inv(w, policy)
    ensures w.now > ZERO_TIME
  {
  }

  lemma StepKeeps(w: World, e: Event, policy: StatePolicy)
    requires Inv(w, policy) && ValidPolicy(policy) && Enabled(w, e, policy)
    ensures Inv(Next(w, e, policy), policy)
  {
    hide Inv, Prune, RevokeFamily, Evict, RegisterClient, TouchClient;
    hide CreateAuthorization, CommitLogin, CommitConsent, CommitCodeExchange, CommitRefreshRotation;
    if !e.Register? && !e.Touch? && Apply(w.store, e, policy).1.Err? {
      RefusalKeeps(w, e, policy);
      return;
    }
    match e
    case Register(client, now) =>
      AgeKeeps(w, now, policy);
      RegisterKeeps(w.(now := now), client, policy);
    case Touch(id, at) =>
      TouchKeeps(w, id, at, policy);
    case Create(auth, t) =>
      PrunedKeeps(w, t, t, policy);
      PruneKeepsClients(w.store, t);
      CreateKeeps(Pruned(w, t, t), auth, policy);
    case Login(commit, t, now) =>
      PrunedKeeps(w, t, now, policy);
      LoginKeeps(Pruned(w, t, now), commit, policy);
    case Decide(commit, t, now) =>
      PrunedKeeps(w, t, now, policy);
      DecideKeeps(Pruned(w, t, now), commit, policy);
    case Exchange(commit, t, now) =>
      PrunedKeeps(w, t, now, policy);
      ExchangeAccepted(Prune(w.store, t), commit, policy, now);
      ExchangeKeeps(Pruned(w, t, now), commit, policy);
    case Rotate(rotation, t, now) =>
      PrunedKeeps(w, t, now, policy);
      RotateKeeps(Pruned(w, t, now), rotation, policy);
    case Revoke(family, at) =>
      RevokeKeeps(w, family, at, policy);
    case Sweep(t) =>
      PruneKeeps(w, t, policy);
  }

  lemma TouchKeeps(w: World, id: ClientID, at: Time, policy: StatePolicy)
    requires Inv(w, policy)
    ensures Inv(w.(store := TouchClient(w.store, id, at).0), policy)
  {
    hide CredentialInv, FamiliesInv, RowsInv, ActiveGrants;
    if id in w.store.clients {
      var clients := w.store.clients[id := w.store.clients[id].(lastUsedAt := at)];
      assert clients.Keys == w.store.clients.Keys;
      assert |clients| == |clients.Keys|;
    }
    assert CredentialInv(TouchClient(w.store, id, at).0, w.past) by {
      TouchKeepsCredentials(w.store, w.past, id, at);
    }
  }

  lemma TouchKeepsCredentials(s: State, past: Past, id: ClientID, at: Time)
    requires CredentialInv(s, past)
    ensures CredentialInv(TouchClient(s, id, at).0, past)
  {
    hide AuthsKnown, ConsentsKnown, CodesKnown, TransactionsSpent, ConsentsSpent, CodesSpent;
  }

  /** The empty store, at any clock reading but the zero time. */
  lemma StartHolds(now: Time, policy: StatePolicy)
    requires now > ZERO_TIME && ValidPolicy(policy)
    ensures Inv(Start(now), policy)
  {
    assert ActiveGrants(EMPTY.refresh) == {};
  }

  lemma {:induction false} RunKeeps(w: World, es: seq<Event>, policy: StatePolicy)
    requires Inv(w, policy) && ValidPolicy(policy) && Legal(w, es, policy)
    ensures Inv(Run(w, es, policy), policy)
    decreases |es|
  {
    hide Inv, Enabled, Next;
    if es != [] {
      StepKeeps(w, es[0], policy);
      RunKeeps(Next(w, es[0], policy), es[1..], policy);
    }
  }
}
