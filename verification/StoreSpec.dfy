/**
 The store as a state machine on values. Every commit function takes a state that has
 already been pruned: the memory store keeps that prune whatever the outcome, the SQLite
 store only when its transaction commits, and both compute the rest as stated here.
 */
module StoreSpec {
  import opened Scopes
  import opened Model
  import opened Transitions

  datatype State = State(
    clients: map<ClientID, Client>,
    authorizations: map<CredentialDigest, Authorization>,
    consents: map<CredentialDigest, Consent>,
    codes: map<CredentialDigest, Code>,
    refresh: map<CredentialDigest, Grant>)

  const EMPTY: State := State(map[], map[], map[], map[], map[])

  // -------------------------------------------------------------------------
  // Pruning
  // -------------------------------------------------------------------------

  /** The family's latest expiry lies after `now`; the first pass starts from the zero time. */
  ghost predicate FamilyLive(refresh: map<CredentialDigest, Grant>, family: RefreshFamilyID, now: Time) {
    || ZERO_TIME > now
    || exists d :: d in refresh && refresh[d].familyID == family && refresh[d].expiresAt > now
  }

  ghost function PruneRefresh(refresh: map<CredentialDigest, Grant>, now: Time): map<CredentialDigest, Grant> {
    map d | d in refresh && FamilyLive(refresh, refresh[d].familyID, now) :: refresh[d]
  }

  ghost function PruneAuthorizations(rows: map<CredentialDigest, Authorization>, now: Time)
    : map<CredentialDigest, Authorization>
  {
    map d | d in rows && rows[d].expiresAt > now :: rows[d]
  }

  ghost function PruneConsents(rows: map<CredentialDigest, Consent>, now: Time): map<CredentialDigest, Consent> {
    map d | d in rows && rows[d].expiresAt > now :: rows[d]
  }

  ghost function PruneCodes(rows: map<CredentialDigest, Code>, now: Time): map<CredentialDigest, Code> {
    map d | d in rows && rows[d].expiresAt > now :: rows[d]
  }

  ghost function Prune(s: State, now: Time): State {
    State(s.clients,
          PruneAuthorizations(s.authorizations, now),
          PruneConsents(s.consents, now),
          PruneCodes(s.codes, now),
          PruneRefresh(s.refresh, now))
  }

  ghost function PruneCounts(s: State, now: Time): PruneStats {
    var p := Prune(s, now);
    PruneStats(
      |s.authorizations| - |p.authorizations|,
      |s.consents| - |p.consents|,
      |s.codes| - |p.codes|,
      |s.refresh| - |p.refresh|)
  }

  /** A later prune makes an earlier one unobservable. */
  lemma PruneAbsorbs(s: State, t: Time, u: Time)
    requires t <= u
    ensures Prune(Prune(s, t), u) == Prune(s, u)
  {
    hide PruneRefresh;
    PruneRefreshAbsorbs(s.refresh, t, u);
  }

  lemma PruneRefreshAbsorbs(rows: map<CredentialDigest, Grant>, t: Time, u: Time)
    requires t <= u
    ensures PruneRefresh(PruneRefresh(rows, t), u) == PruneRefresh(rows, u)
  {
    var p := PruneRefresh(rows, t);
    forall d | d in rows
      ensures d in PruneRefresh(p, u) <==> d in PruneRefresh(rows, u)
    {
      var family := rows[d].familyID;
      if ZERO_TIME <= u && FamilyLive(rows, family, u) {
        var e :| e in rows && rows[e].familyID == family && rows[e].expiresAt > u;
        assert FamilyLive(rows, family, t);
        assert e in p && p[e].expiresAt > u;
        assert FamilyLive(p, family, u);
      }
    }
  }

  // -------------------------------------------------------------------------
  // Families
  // -------------------------------------------------------------------------

  ghost function RevokeRows(refresh: map<CredentialDigest, Grant>, family: RefreshFamilyID, at: Time)
    : map<CredentialDigest, Grant>
  {
    map d | d in refresh ::
      if refresh[d].familyID == family && refresh[d].revokedAt == ZERO_TIME
      then refresh[d].(revokedAt := at)
      else refresh[d]
  }

  ghost function RevokeFamily(s: State, family: RefreshFamilyID, at: Time): State {
    s.(refresh := RevokeRows(s.refresh, family, at))
  }

  lemma RevokedFamilyLives(rows: map<CredentialDigest, Grant>, family: RefreshFamilyID, at: Time, f: RefreshFamilyID,
                           now: Time)
    ensures FamilyLive(RevokeRows(rows, family, at), f, now) <==> FamilyLive(rows, f, now)
  {
    var rows' := RevokeRows(rows, family, at);
    if d :| d in rows && rows[d].familyID == f && rows[d].expiresAt > now {
      assert d in rows' && rows'[d].familyID == f && rows'[d].expiresAt > now;
    }
  }

  lemma RevokePruneRows(rows: map<CredentialDigest, Grant>, family: RefreshFamilyID, at: Time, now: Time)
    ensures PruneRefresh(RevokeRows(rows, family, at), now) == RevokeRows(PruneRefresh(rows, now), family, at)
  {
    hide FamilyLive;
    forall f
      ensures FamilyLive(RevokeRows(rows, family, at), f, now) <==> FamilyLive(rows, f, now)
    {
      RevokedFamilyLives(rows, family, at, f, now);
    }
  }

  lemma RevokePrune(s: State, family: RefreshFamilyID, at: Time, now: Time)
    ensures Prune(RevokeFamily(s, family, at), now) == RevokeFamily(Prune(s, now), family, at)
  {
    hide PruneRefresh, RevokeRows, PruneAuthorizations, PruneConsents, PruneCodes;
    RevokePruneRows(s.refresh, family, at, now);
  }

  ghost function ActiveGrants(refresh: map<CredentialDigest, Grant>): set<CredentialDigest> {
    set d | d in refresh && refresh[d].Active()
  }

  // -------------------------------------------------------------------------
  // Clients
  // -------------------------------------------------------------------------

  predicate LiveAuthorization(a: Authorization, id: ClientID, now: Time) {
    a.clientID == id && a.consumedAt == ZERO_TIME && a.expiresAt > now
  }

  predicate LiveConsent(c: Consent, id: ClientID, now: Time) {
    c.client.id == id && c.consumedAt == ZERO_TIME && c.expiresAt > now
  }

  predicate LiveCode(c: Code, id: ClientID, now: Time) {
    c.clientID == id && c.consumedAt == ZERO_TIME && c.expiresAt > now
  }

  predicate LiveGrant(g: Grant, id: ClientID, now: Time) {
    g.clientID == id && g.revokedAt == ZERO_TIME && g.expiresAt > now
  }

  /** Some live, unspent record names the client. */
  ghost predicate HasLiveState(s: State, id: ClientID, now: Time) {
    || (exists d :: d in s.authorizations && LiveAuthorization(s.authorizations[d], id, now))
    || (exists d :: d in s.consents && LiveConsent(s.consents[d], id, now))
    || (exists d :: d in s.codes && LiveCode(s.codes[d], id, now))
    || (exists d :: d in s.refresh && LiveGrant(s.refresh[d], id, now))
  }

  ghost predicate Evictable(s: State, id: ClientID, policy: RegistrationPolicy, now: Time)
    requires id in s.clients
  {
    && s.clients[id].trust == Unverified
    && s.clients[id].lastUsedAt <= now - policy.unverifiedClientTTL
    && !HasLiveState(s, id, now)
  }

  ghost function Evict(s: State, policy: RegistrationPolicy, now: Time): State {
    s.(clients := map id | id in s.clients && !Evictable(s, id, policy, now) :: s.clients[id])
  }

  /** Registration on a state whose idle clients are already evicted. */
  ghost function RegisterClient(e: State, client: Client, policy: StatePolicy): (State, Outcome) {
    if |e.clients| >= policy.registration.maxClients then (e, Err(Capacity))
    else if client.id in e.clients then (e, Err(Conflict))
    else (e.(clients := e.clients[client.id := client]), Ok)
  }

  ghost function TouchClient(s: State, id: ClientID, at: Time): (State, Outcome) {
    if id !in s.clients then (s, Err(NotFound))
    else (s.(clients := s.clients[id := s.clients[id].(lastUsedAt := at)]), Ok)
  }

  // -------------------------------------------------------------------------
  // Commits, on a pruned state
  // -------------------------------------------------------------------------

  ghost function CreateAuthorization(p: State, auth: Authorization, policy: StatePolicy): (State, Outcome) {
    var digest := DigestCredential(auth.token);
    if |p.authorizations| >= policy.capacity.maxAuthorizations then (p, Err(Capacity))
    else if digest in p.authorizations then (p, Err(Conflict))
    else (p.(authorizations := p.authorizations[digest := auth]), Ok)
  }

  ghost function CommitLogin(p: State, commit: LoginCommit, policy: StatePolicy, now: Time): (State, Outcome) {
    if commit.transaction !in p.authorizations then (p, Err(NotFound))
    else
      var auth := p.authorizations[commit.transaction];
      var digest := DigestCredential(commit.consent.token);
      var verdict := ValidateLoginCommit(auth, commit.consent, now);
      if verdict.Err? then (p, verdict)
      else if |p.consents| >= policy.capacity.maxConsents then (p, Err(Capacity))
      else if digest in p.consents then (p, Err(Conflict))
      else (p.(authorizations := p.authorizations[commit.transaction := auth.(consumedAt := now)],
               consents := p.consents[digest := commit.consent]), Ok)
  }

  ghost function CommitConsent(p: State, commit: ConsentCommit, policy: StatePolicy, now: Time): (State, Outcome) {
    if commit.consent !in p.consents then (p, Err(NotFound))
    else
      var consent := p.consents[commit.consent];
      var verdict := ValidateConsentCommit(consent, commit, now);
      var spent := p.(consents := p.consents[commit.consent := consent.(consumedAt := now)]);
      if verdict.Err? then (p, verdict)
      else if commit.decision != Approve then (spent, Ok)
      else if |p.codes| >= policy.capacity.maxCodes then (p, Err(Capacity))
      else if commit.code.digest in p.codes then (p, Err(Conflict))
      else (spent.(codes := p.codes[commit.code.digest := commit.code]), Ok)
  }

  ghost function CommitCodeExchange(p: State, commit: ExchangeCommit, policy: StatePolicy, now: Time)
    : (State, Outcome)
  {
    if commit.code !in p.codes then (p, Err(NotFound))
    else
      var code := p.codes[commit.code];
      var verdict := ValidateCodeExchangeCommit(code, commit, now);
      if verdict.Err? then (p, verdict)
      else if |ActiveGrants(p.refresh)| >= policy.capacity.maxRefreshGrants then (p, Err(Capacity))
      else
        var grant := commit.refresh.value;
        if grant.digest in p.refresh then (p, Err(Conflict))
        else (p.(codes := p.codes[commit.code := code.(consumedAt := now)],
                 refresh := p.refresh[grant.digest := grant]), Ok)
  }

  ghost function CommitRefreshRotation(p: State, rotation: Rotation, policy: StatePolicy, now: Time)
    : (State, Outcome)
  {
    if rotation.current !in p.refresh then (p, Err(NotFound))
    else
      var current := p.refresh[rotation.current];
      if current.familyID != rotation.familyID || current.generation != rotation.generation then (p, Err(Binding))
      else if !current.Active() then (RevokeFamily(p, rotation.familyID, now), Err(Revoked))
      else
        var verdict := ValidateRefreshRotation(current, rotation, now);
        var next := rotation.successor;
        if verdict.Err? then (p, verdict)
        else if next.generation >= policy.capacity.maxRefreshGenerations then
          (RevokeFamily(p, rotation.familyID, now), Err(Revoked))
        else if next.digest in p.refresh then (p, Err(Conflict))
        else (p.(refresh := p.refresh[rotation.current := current.(consumedAt := now)][next.digest := next]), Ok)
  }

  // -------------------------------------------------------------------------
  // One call of the store, with the clock readings it makes
  // -------------------------------------------------------------------------

  /** `pruneAt` and `now` are the two clock readings of a memory-store commit. */
  datatype Event =
    | Register(client: Client, now: Time)
    | Touch(id: ClientID, at: Time)
    | Create(auth: Authorization, pruneAt: Time)
    | Login(login: LoginCommit, pruneAt: Time, now: Time)
    | Decide(decide: ConsentCommit, pruneAt: Time, now: Time)
    | Exchange(exchange: ExchangeCommit, pruneAt: Time, now: Time)
    | Rotate(rotation: Rotation, pruneAt: Time, now: Time)
    | Revoke(family: RefreshFamilyID, at: Time)
    | Sweep(pruneAt: Time)

  /** The last clock reading of a call, or `now` for the two calls that read none. */
  function TimeAfter(e: Event, now: Time): Time {
    match e
    case Register(_, t) => t
    case Create(_, t) => t
    case Login(_, _, t) => t
    case Decide(_, _, t) => t
    case Exchange(_, _, t) => t
    case Rotate(_, _, t) => t
    case Sweep(t) => t
    case Touch(_, _) => now
    case Revoke(_, _) => now
  }

  /** What the memory store does: prune, then the commit; the prune stays either way. */
  ghost function Apply(s: State, e: Event, policy: StatePolicy): (State, Outcome) {
    match e
    case Register(client, now) => RegisterClient(Evict(s, policy.registration, now), client, policy)
    case Touch(id, at) => TouchClient(s, id, at)
    case Create(auth, t) => CreateAuthorization(Prune(s, t), auth, policy)
    case Login(commit, t, now) => CommitLogin(Prune(s, t), commit, policy, now)
    case Decide(commit, t, now) => CommitConsent(Prune(s, t), commit, policy, now)
    case Exchange(commit, t, now) => CommitCodeExchange(Prune(s, t), commit, policy, now)
    case Rotate(rotation, t, now) => CommitRefreshRotation(Prune(s, t), rotation, policy, now)
    case Revoke(family, at) => (RevokeFamily(s, family, at), Ok)
    case Sweep(t) => (Prune(s, t), Ok)
  }

  /** The state a refused call leaves behind. */
  ghost function Refused(s: State, e: Event, policy: StatePolicy): State {
    match e
    case Register(_, now) => Evict(s, policy.registration, now)
    case Touch(_, _) => s
    case Revoke(_, _) => s
    case Create(_, t) => Prune(s, t)
    case Login(_, t, _) => Prune(s, t)
    case Decide(_, t, _) => Prune(s, t)
    case Exchange(_, t, _) => Prune(s, t)
    case Rotate(_, t, _) => Prune(s, t)
    case Sweep(t) => Prune(s, t)
  }

  /**
   A refused call changes nothing but what its own prune or eviction removed, except that a
   rotation refused as revoked has revoked the whole family. A registration refused for
   capacity has evicted nobody, provided the client table was within its bound.
   */
  lemma RefusalChangesNothingLive(s: State, e: Event, policy: StatePolicy)
    requires Apply(s, e, policy).1.Err?
    ensures Apply(s, e, policy).0 ==
            if e.Rotate? && Apply(s, e, policy).1 == Err(Revoked)
            then RevokeFamily(Prune(s, e.pruneAt), e.rotation.familyID, e.now)
            else Refused(s, e, policy)
    ensures e.Register? && Apply(s, e, policy).1 == Err(Capacity) && |s.clients| <= policy.registration.maxClients
            ==> Apply(s, e, policy).0 == s
  {
    hide Prune, Evictable, RevokeFamily, ActiveGrants;
    hide ValidateLoginCommit, ValidateConsentCommit, ValidateCodeExchangeCommit, IsSubsetOf;
    match e
    case Register(client, now) =>
      var kept := Evict(s, policy.registration, now).clients;
      assert kept.Keys <= s.clients.Keys;
      if |s.clients| <= policy.registration.maxClients && |kept| >= policy.registration.maxClients {
        SubsetCount(kept.Keys, s.clients.Keys);
        assert kept == s.clients;
      }
    case Touch(_, _) =>
    case Create(_, _) =>
    case Login(_, _, _) =>
    case Decide(_, _, _) =>
    case Exchange(_, _, _) =>
    case Rotate(_, _, _) =>
    case Revoke(_, _) =>
    case Sweep(_) =>
  }

  /** A subset is no larger, and is the whole set if it is no smaller. */
  lemma SubsetCount<T>(a: set<T>, b: set<T>)
    requires a <= b
    ensures |a| <= |b| && (|a| == |b| ==> a == b)
  {
    assert b == a + (b - a);
    assert |b| == |a| + |b - a|;
  }
}
