/**
 What each engine call does with what it is given: exactly when it goes on, what every field
 of the record it builds is, and which error means what. The statements speak of the input,
 of the record that was read and of the answers of the environment, and of scopes as sets.
 */
module Requests {
  import opened Scopes
  import opened Model
  import opened Config
  import opened Registry
  import opened Plans
  import Engine

  /** An engine call with the secrets it draws, its clock readings and the answers it gets. */
  datatype Request =
    | Authorize(input: BeginInput, transaction: Option<string>, at: Time)
    | LogIn(presented: string, principal: Principal, login: LoginAnswers)
    | Resolve(presented: string, decision: Decision, selected: seq<string>, consent: DecideAnswers)
    | Redeem(exchange: ExchangeInput, redemption: ExchangeAnswers)
    | Renew(presented: string, clientID: string, renewal: RefreshAnswers)
    | Withdraw(presented: string, clientID: string, at: Time)

  /** The clock reading that a request builds its records from. */
  function Reading(r: Request): Time {
    match r
    case Authorize(_, _, at) => at
    case LogIn(_, _, a) => a.now
    case Resolve(_, _, _, a) => a.now
    case Redeem(_, a) => a.now
    case Renew(_, _, a) => a.now
    case Withdraw(_, _, at) => at
  }

  // -------------------------------------------------------------------------
  // Lists of scopes
  // -------------------------------------------------------------------------

  predicate ValidList(values: seq<string>) {
    forall v | v in values :: NewIdentifier(v).Some?
  }

  function Listed(values: seq<string>): set<Scope> {
    set v | v in values :: TrimSpace(v)
  }

  /** A list is accepted exactly when all its entries are scopes, and then stands for their set. */
  lemma ListIsSet(values: seq<string>)
    ensures FromValues(values).Some? <==> ValidList(values)
    ensures ValidList(values) ==> Elements(FromValues(values).value) == Listed(values)
  {
    hide TrimSpace, IsIdentifier;
    assert forall i | 0 <= i < |values| :: values[i] in values;
    if AllIdentifiers(values) {
      forall v | v in values
        ensures NewIdentifier(v).Some?
      {
        var i :| 0 <= i < |values| && values[i] == v;
        assert IsIdentifier(TrimSpace(values[i]));
      }
      forall x
        ensures x in TrimAll(values) <==> x in Listed(values)
      {
        if x in TrimAll(values) {
          var i :| 0 <= i < |values| && TrimAll(values)[i] == x;
          assert values[i] in values;
        }
        if x in Listed(values) {
          var v :| v in values && TrimSpace(v) == x;
          var i :| 0 <= i < |values| && values[i] == v;
          assert TrimAll(values)[i] == x;
        }
      }
    }
  }

  // -------------------------------------------------------------------------
  // Configuration
  // -------------------------------------------------------------------------

  /** Everything that has to be positive. */
  function Positives(c: Settings): seq<int> {
    var registration, capacity := c.statePolicy.registration, c.statePolicy.capacity;
    [c.accessTTL, c.transactionTTL, c.consentTTL, c.codeTTL,
     registration.maxClients, registration.maxRedirectURIs, registration.maxDisplayName, registration.maxScopeCount,
     registration.maxRedirectBytes, registration.unverifiedClientTTL,
     capacity.maxAuthorizations, capacity.maxConsents, capacity.maxCodes, capacity.maxRefreshGrants,
     capacity.maxRefreshGenerations, c.http.maxBodyBytes, c.http.maxFieldBytes, c.http.maxArrayLength]
  }

  predicate ResourceInOrder(rc: ResourceConfig, supported: ScopeSet, urls: Urls) {
    && urls.absolute(TrimSpace(rc.id)) && urls.origin(TrimSpace(rc.id)) && TrimSpace(rc.displayName) != ""
    && ValidList(rc.supportedScopes) && Listed(rc.supportedScopes) <= Elements(supported)
  }

  /** Exactly the configurations with positive limits and lifetimes and distinct, well-formed resources. */
  lemma AcceptedExactly(c: Settings, urls: Urls)
    ensures Accepted(c, urls)
            <==> && urls.issuer(c.issuer) && c.resources != [] && (forall x | x in Positives(c) :: x > 0)
                 && c.refreshTTL > Add64(c.consentTTL, c.codeTTL)
                 && (forall rc | rc in c.resources :: ResourceInOrder(rc, c.supportedScopes, urls))
                 && forall i, j | 0 <= i < j < |c.resources| ::
                      TrimSpace(c.resources[i].id) != TrimSpace(c.resources[j].id)
  {
    hide TrimSpace, ResourceInOrder, ResourceAccepted, ValidList, LimitsAccepted, Positives, Add64;
    AllPositive(c);
    forall rc | rc in c.resources
      ensures ResourceInOrder(rc, c.supportedScopes, urls) <==> ResourceAccepted(rc, c.supportedScopes, urls)
    {
      ResourcesAlike(rc, c.supportedScopes, urls);
    }
    assert forall i | 0 <= i < |c.resources| :: c.resources[i] in c.resources;
  }

  lemma AllPositive(c: Settings)
    ensures (forall x | x in Positives(c) :: x > 0)
            <==> LimitsAccepted(c) && c.accessTTL > 0 && c.transactionTTL > 0 && c.consentTTL > 0 && c.codeTTL > 0
  {
    var p := Positives(c);
    if forall x | x in p :: x > 0 {
      forall i | 0 <= i < 18
        ensures p[i] > 0
      {
        assert p[i] in p;
      }
      assert p[0] > 0 && p[1] > 0 && p[2] > 0 && p[3] > 0 && p[4] > 0 && p[5] > 0 && p[6] > 0 && p[7] > 0 && p[8] > 0;
      assert p[9] > 0 && p[10] > 0 && p[11] > 0 && p[12] > 0 && p[13] > 0 && p[14] > 0 && p[15] > 0 && p[16] > 0;
      assert p[17] > 0;
    }
  }

  lemma ResourcesAlike(rc: ResourceConfig, supported: ScopeSet, urls: Urls)
    ensures ResourceInOrder(rc, supported, urls) <==> ResourceAccepted(rc, supported, urls)
  {
    hide TrimSpace, ValidList, Listed, FromValues;
    ListIsSet(rc.supportedScopes);
  }

  // -------------------------------------------------------------------------
  // RegisterClient
  // -------------------------------------------------------------------------

  /** The scopes that are asked for: all that the server supports when none are named. */
  function Asked(d: Deployment, input: Engine.RegisterInput): set<Scope> {
    if input.scopes == [] then Elements(d.config.supportedScopes) else Listed(input.scopes)
  }

  predicate RedirectInOrder(d: Deployment, raw: string) {
    && d.urls.absolute(TrimSpace(raw)) && d.urls.redirect(TrimSpace(raw))
    && |TrimSpace(raw)| <= d.config.statePolicy.registration.maxRedirectBytes
  }

  predicate RedirectsInOrder(d: Deployment, raws: seq<string>) {
    && (forall raw | raw in raws :: RedirectInOrder(d, raw))
    && forall i, j | 0 <= i < j < |raws| :: TrimSpace(raws[i]) != TrimSpace(raws[j])
  }

  predicate SizesInOrder(d: Deployment, input: Engine.RegisterInput) {
    && 0 < |input.displayName| <= d.config.statePolicy.registration.maxDisplayName
    && 0 < |input.redirectURIs| <= d.config.statePolicy.registration.maxRedirectURIs
  }

  predicate ScopesInOrder(d: Deployment, input: Engine.RegisterInput) {
    && ValidList(input.scopes) && Asked(d, input) <= Elements(d.config.supportedScopes)
    && |Asked(d, input)| <= d.config.statePolicy.registration.maxScopeCount
  }

  /** The client is as asked for, unverified, and registered at that instant. */
  predicate ClientFits(d: Deployment, input: Engine.RegisterInput, id: ClientID, now: Time, client: Client) {
    && client.id == id && client.displayName == input.displayName && client.trust == Unverified
    && |client.redirectURIs| == |input.redirectURIs|
    && (forall i | 0 <= i < |input.redirectURIs| :: client.redirectURIs[i] == TrimSpace(input.redirectURIs[i]))
    && Elements(client.allowedScopes) == Asked(d, input)
    && client.createdAt == now && client.lastUsedAt == now
  }

  lemma {:induction false} DistinctCount(s: ScopeSet)
    ensures |Elements(s)| == |s|
  {
    if s != [] {
      var rest: ScopeSet := s[1..];
      DistinctCount(rest);
      if rest != [] {
        NotBelowHead(s[0], rest);
      }
      assert Elements(s) == {s[0]} + Elements(rest);
    }
  }

  /** Metadata is accepted exactly when sizes, redirect URIs and scopes are in order; the first that is not is named. */
  lemma RegisterExactly(d: Deployment, input: Engine.RegisterInput, id: ClientID, now: Time)
    ensures Engine.MetadataAccepted(d, input)
            <==> SizesInOrder(d, input) && RedirectsInOrder(d, input.redirectURIs) && ScopesInOrder(d, input)
    ensures !Engine.MetadataAccepted(d, input) ==>
              Engine.MetadataError(d, input)
              == if !SizesInOrder(d, input) then InvalidClientMetadata
                 else if !RedirectsInOrder(d, input.redirectURIs) then InvalidRedirectURI else InvalidScope
    ensures Engine.MetadataAccepted(d, input) ==>
              ClientFits(d, input, id, now, Engine.NewClient(d, input, id, now))
  {
    hide TrimSpace, ValidList, Listed, FromValues, Elements;
    RedirectLists(d, input.redirectURIs);
    ListIsSet(input.scopes);
    NoScopesAsked(d, input);
    var scopes := Engine.RequestedScopes(d, input);
    if scopes.Some? {
      DistinctCount(scopes.value);
    }
  }

  lemma NoScopesAsked(d: Deployment, input: Engine.RegisterInput)
    ensures input.scopes == [] ==> ValidList(input.scopes)
  {
  }

  lemma RedirectLists(d: Deployment, raws: seq<string>)
    ensures RedirectsInOrder(d, raws)
            <==> (forall i | 0 <= i < |raws| :: Engine.RedirectAccepted(d, raws[i]))
                 && Engine.DistinctTexts(TrimAll(raws))
  {
    hide TrimSpace;
    assert forall i | 0 <= i < |raws| :: raws[i] in raws;
    assert forall raw :: RedirectInOrder(d, raw) <==> Engine.RedirectAccepted(d, raw);
    hide RedirectInOrder, Engine.RedirectAccepted;
    var trimmed := TrimAll(raws);
    assert Engine.DistinctTexts(trimmed)
           <==> forall i, j | 0 <= i < j < |raws| :: TrimSpace(raws[i]) != TrimSpace(raws[j]) by {
      if Engine.DistinctTexts(trimmed) {
        forall i, j | 0 <= i < j < |raws|
          ensures TrimSpace(raws[i]) != TrimSpace(raws[j])
        {
          assert trimmed[i] != trimmed[j];
        }
      }
    }
  }

  // -------------------------------------------------------------------------
  // BeginAuthorization
  // -------------------------------------------------------------------------

  predicate BeginInOrder(d: Deployment, input: BeginInput, client: Option<Client>) {
    var uri, id := TrimSpace(input.redirectURI), TrimSpace(input.resource);
    && NewIdentifier(input.clientID).Some? && input.responseType == "code"
    && 0 < |input.state| <= d.config.http.maxFieldBytes && input.challenge.Some?
    && client.Some? && d.urls.absolute(uri) && d.urls.redirect(uri) && uri in client.value.redirectURIs
    && d.urls.absolute(id) && id in d.resources
    && ValidList(input.scopes) && Listed(input.scopes) <= Requestable(d, client.value, id)
  }

  /** What client, resource and server all allow. */
  function Requestable(d: Deployment, client: Client, id: ResourceID): set<Scope>
    requires id in d.resources
  {
    Elements(client.allowedScopes) * Elements(d.resources[id].supportedScopes) * Elements(d.config.supportedScopes)
  }

  /** The transaction is the one that was asked for. */
  predicate AuthFits(d: Deployment, input: BeginInput, token: string, at: Time, auth: Authorization) {
    && auth.token == token && Some(auth.clientID) == NewIdentifier(input.clientID)
    && auth.redirectURI == TrimSpace(input.redirectURI) && auth.resource == TrimSpace(input.resource)
    && auth.state == input.state && Some(auth.challenge) == input.challenge
    && Elements(auth.requestedScopes) == Listed(input.scopes)
    && auth.expiresAt == at + d.config.transactionTTL && auth.consumedAt == ZERO_TIME
  }

  /** What an error of `BeginAuthorization` says. */
  predicate BeginError(d: Deployment, input: BeginInput, client: Option<Client>, token: Option<string>,
                       code: ErrorCode)
  {
    var uri, id := TrimSpace(input.redirectURI), TrimSpace(input.resource);
    match code
    case InvalidRequest =>
      || NewIdentifier(input.clientID).None? || client.None? || input.responseType != "code"
      || !(0 < |input.state| <= d.config.http.maxFieldBytes) || input.challenge.None?
    case InvalidRedirectURI =>
      !(d.urls.absolute(uri) && d.urls.redirect(uri)) || (client.Some? && uri !in client.value.redirectURIs)
    case InvalidTarget => !d.urls.absolute(id) || id !in d.resources
    case InvalidScope =>
      || !ValidList(input.scopes)
      || (client.Some? && id in d.resources && !(Listed(input.scopes) <= Requestable(d, client.value, id)))
    case Temporary => BeginInOrder(d, input, client) && token.None?
    case _ => false
  }

  lemma BeginExactly(d: Deployment, input: BeginInput, client: Option<Client>, token: Option<string>, at: Time)
    ensures var plan := Begin(d, input, client, token, at);
            && (plan.PlanBegin? <==> BeginInOrder(d, input, client) && token.Some?)
            && (plan.PlanBegin? || plan.Refuse?)
            && (plan.PlanBegin? ==> plan.at == at && AuthFits(d, input, token.value, at, plan.auth))
            && (plan.Refuse? ==> BeginError(d, input, client, token, plan.code))
            && (BeginInOrder(d, input, client) && token.None? ==> plan == Refuse(Temporary))
  {
    hide NewIdentifier, TrimSpace, ValidList, Listed, FromValues, Elements;
    ListIsSet(input.scopes);
  }

  // -------------------------------------------------------------------------
  // CompleteLogin
  // -------------------------------------------------------------------------

  predicate LoginInOrder(d: Deployment, auth: Option<Authorization>, client: Option<Client>, checkedAt: Time) {
    && auth.Some? && checkedAt <= auth.value.expiresAt && auth.value.resource in d.resources
    && client.Some? && auth.value.redirectURI in client.value.redirectURIs
  }

  /** The consent is for that transaction, that client and whoever logged in; it allows all that everyone allows. */
  predicate SessionFits(d: Deployment, auth: Authorization, client: Client, principal: Principal, a: LoginAnswers,
                        c: Consent)
  {
    && a.token == Some(c.token) && a.available.Some? && auth.resource in d.resources
    && c.client == ClientSnapshot(client.id, client.displayName, client.trust, auth.redirectURI)
    && c.state == auth.state && c.challenge == auth.challenge && c.resource == auth.resource
    && c.principal == principal
    && Elements(c.allowedScopes)
       == Elements(auth.requestedScopes) * Elements(client.allowedScopes)
          * Elements(d.resources[auth.resource].supportedScopes) * Elements(a.available.value)
    && c.authorizationEnds == a.now + d.config.refreshTTL && c.expiresAt == a.now + d.config.consentTTL
    && c.consumedAt == ZERO_TIME
  }

  lemma LoginExactly(d: Deployment, transaction: string, principal: Principal, auth: Option<Authorization>,
                     client: Option<Client>, a: LoginAnswers)
    ensures var plan := CompleteLogin(d, transaction, principal, auth, client, a);
            var known, inOrder := NewIdentifier(principal.subject).Some?, LoginInOrder(d, auth, client, a.checkedAt);
            && (plan == Refuse(AccessDenied) <==> !known)
            && (plan == Refuse(InvalidGrant) <==> known && !inOrder)
            && (plan == Refuse(Temporary) <==> known && inOrder && (a.available.None? || a.token.None?))
            && (plan.PlanLogin? <==> known && inOrder && a.available.Some? && a.token.Some?)
            && (plan.PlanLogin? ==>
                  && plan.at == a.now && plan.login.transaction == DigestCredential(transaction)
                  && SessionFits(d, auth.value, client.value, principal, a, plan.login.consent))
  {
    hide NewIdentifier;
  }

  // -------------------------------------------------------------------------
  // DecideConsent
  // -------------------------------------------------------------------------

  predicate SelectionInOrder(consent: Consent, decision: Decision, selected: seq<string>) {
    ValidList(selected) && (decision == Approve ==> Listed(selected) <= Elements(consent.allowedScopes))
  }

  /** The code is for that consent and stands for exactly what was selected. */
  predicate CodeFits(d: Deployment, c: Consent, selected: seq<string>, a: DecideAnswers, k: Code) {
    && a.code.Some? && k.digest == DigestCredential(a.code.value)
    && k.clientID == c.client.id && k.redirectURI == c.client.redirectURI && k.challenge == c.challenge
    && k.principal == c.principal && k.resource == c.resource && k.state == c.state
    && Elements(k.scopes) == Listed(selected)
    && k.authorizationEnds == c.authorizationEnds && k.expiresAt == a.now + d.config.codeTTL
    && k.consumedAt == ZERO_TIME
  }

  /** The caller is sent back to the client's own redirect URI with its own state, and with the code if there is one. */
  predicate RedirectFits(c: Consent, decision: Decision, a: DecideAnswers, reply: Reply) {
    if decision == Approve && a.code == Some("") then reply == Failure(InvalidRequest)
    else reply == Redirected(c.client.redirectURI, c.state, if decision == Approve then a.code else None)
  }

  /** An approval brings its code; a denial spends the consent and brings none. */
  predicate DecisionFits(d: Deployment, c: Consent, decision: Decision, selected: seq<string>, a: DecideAnswers,
                         decide: ConsentCommit)
  {
    && decide.decision == decision
    && (if decision == Approve then CodeFits(d, c, selected, a, decide.code)
        else decision == Deny && decide.code.digest == ZeroDigest)
  }

  lemma DecisionExactly(d: Deployment, token: string, decision: Decision, selected: seq<string>,
                        consent: Option<Consent>, a: DecideAnswers)
    ensures var plan := DecideConsent(d, token, decision, selected, consent, a);
            var live := consent.Some? && a.checkedAt <= consent.value.expiresAt;
            && (plan == Refuse(InvalidGrant) <==> !live)
            && (plan == Refuse(InvalidRequest) <==> live && decision == Undecided)
            && (plan == Refuse(InvalidScope) <==>
                  live && decision != Undecided && !SelectionInOrder(consent.value, decision, selected))
            && (plan == Refuse(Temporary) <==>
                  live && decision == Approve && SelectionInOrder(consent.value, decision, selected) && a.code.None?)
            && (plan.PlanDecide? <==>
                  && live && decision != Undecided && SelectionInOrder(consent.value, decision, selected)
                  && (decision == Approve ==> a.code.Some?))
            && (plan.PlanDecide? ==>
                  && plan.at == a.now && plan.decide.consent == DigestCredential(token)
                  && DecisionFits(d, consent.value, decision, selected, a, plan.decide)
                  && RedirectFits(consent.value, decision, a, plan.redirect))
  {
    hide ValidList, Listed, FromValues, Elements;
    ListIsSet(selected);
  }

  // -------------------------------------------------------------------------
  // Tokens
  // -------------------------------------------------------------------------

  /** The caller is handed the drawn secret and an access token for what the grant stands for. */
  predicate ResponseFits(d: Deployment, g: Grant, now: Time, t: TokenResponse) {
    && g.digest == DigestCredential(t.refreshToken) && t.scopes == g.scopes
    && t.access == AccessGrant(g.principal, g.clientID, g.resource, g.scopes, now, now + d.config.accessTTL)
    && t.expiresIn == d.config.accessTTL
  }

  // -------------------------------------------------------------------------
  // ExchangeCode
  // -------------------------------------------------------------------------

  /** The code is presented in time by the client and with the redirect URI it was made for, and with its verifier. */
  predicate Redeemable(d: Deployment, code: Code, input: ExchangeInput, checkedAt: Time) {
    && NewIdentifier(input.clientID) == Some(code.clientID)
    && d.urls.absolute(TrimSpace(input.redirectURI)) && TrimSpace(input.redirectURI) == code.redirectURI
    && checkedAt <= code.expiresAt && ValidVerifier(input.verifier) && d.s256(input.verifier) == code.challenge.value
  }

  /** The first grant of a family says what the code says. */
  predicate FirstFits(code: Code, a: ExchangeAnswers, g: Grant) {
    && a.token.Some? && g.digest == DigestCredential(a.token.value) && a.family == Some(g.familyID)
    && g.generation == 0 && g.Active()
    && g.clientID == code.clientID && g.principal == code.principal && g.resource == code.resource
    && g.scopes == code.scopes && g.expiresAt == code.authorizationEnds
  }

  lemma ExchangeExactly(d: Deployment, input: ExchangeInput, codes: map<CredentialDigest, Code>, a: ExchangeAnswers)
    ensures var plan, k := ExchangeCode(d, input, BoundCode(d, codes, input), a), DigestCredential(input.code);
            var inOrder := input.code != "" && k in codes && Redeemable(d, codes[k], input, a.checkedAt);
            var answered := a.issued && a.token.Some? && a.family.Some?;
            && (plan == Refuse(InvalidGrant) <==> !inOrder)
            && (plan == Refuse(Temporary) <==> inOrder && !answered)
            && (plan.PlanExchange? <==> inOrder && answered)
            && (plan.PlanExchange? ==>
                  && plan.spent == codes[k].digest && FirstFits(codes[k], a, plan.grant)
                  && plan.response.refreshToken == a.token.value && ResponseFits(d, plan.grant, a.now, plan.response))
  {
    hide NewIdentifier, TrimSpace, ValidVerifier;
  }

  // -------------------------------------------------------------------------
  // Refresh and Revoke
  // -------------------------------------------------------------------------

  /** A token that its own client presents, in time and not revoked. */
  predicate Presentable(token: string, rawClientID: string, grant: Option<Grant>, now: Time) {
    && token != "" && grant.Some? && NewIdentifier(rawClientID) == Some(grant.value.clientID)
    && grant.value.revokedAt == ZERO_TIME && now <= grant.value.expiresAt
  }

  /** The identity provider still vouches for the subject of the grant. */
  predicate Vouched(g: Grant, a: RefreshAnswers) {
    && a.revalidation.Some? && a.revalidation.value.status == Eligible
    && a.revalidation.value.principal.subject == g.principal.subject != ""
  }

  predicate Ineligibly(a: RefreshAnswers) {
    a.revalidation.Some? && a.revalidation.value.status == Ineligible
  }

  /** The successor carries the revalidated principal and exactly the scopes in both the grant and the answer. */
  predicate SuccessorFits(g: Grant, a: RefreshAnswers, next: Grant) {
    && a.token.Some? && next.digest == DigestCredential(a.token.value)
    && next.familyID == g.familyID && next.generation == Increment(g.generation) && next.Active()
    && next.clientID == g.clientID && next.resource == g.resource && next.expiresAt == g.expiresAt
    && a.revalidation.Some? && next.principal == a.revalidation.value.principal && Vouched(g, a)
    && a.available.Some? && Elements(next.scopes) == Elements(g.scopes) * Elements(a.available.value)
  }

  lemma RefreshExactly(d: Deployment, token: string, rawClientID: string, grant: Option<Grant>, a: RefreshAnswers)
    ensures var plan, digest := Refresh(d, token, rawClientID, grant, a), DigestCredential(token);
            var presentable := Presentable(token, rawClientID, grant, a.now);
            var unspent := presentable && grant.value.consumedAt == ZERO_TIME;
            var vouched := unspent && Vouched(grant.value, a);
            var inOrder := vouched && grant.value.resource in d.resources;
            && (plan == Refuse(InvalidGrant) <==> !presentable || (vouched && !inOrder))
            && (plan.PlanRevoke? <==> presentable && (!unspent || Ineligibly(a)))
            && (plan.PlanRevoke? ==>
                  && plan.family == grant.value.familyID && plan.at == a.now
                  && plan.cause == if !unspent then Replay(digest, grant.value.clientID)
                                   else Disqualified(digest, grant.value.clientID, a.revalidation.value))
            && (plan.PlanRotate? <==> inOrder && a.available.Some? && a.issued && a.token.Some?)
            && (plan == Refuse(Temporary) <==>
                  || (unspent && !vouched && !Ineligibly(a))
                  || (inOrder && !(a.available.Some? && a.issued && a.token.Some?)))
            && (plan.PlanRotate? ==>
                  && plan.rotation.current == grant.value.digest && plan.rotation.familyID == grant.value.familyID
                  && plan.rotation.generation == grant.value.generation
                  && SuccessorFits(grant.value, a, plan.rotation.successor)
                  && plan.response.refreshToken == a.token.value
                  && ResponseFits(d, plan.rotation.successor, a.now, plan.response))
  {
    hide NewIdentifier;
  }

  /** A family is withdrawn exactly when its own client presents a token of it that is stored, whatever its state. */
  lemma RevokeExactly(token: string, rawClientID: string, grant: Option<Grant>, at: Time)
    ensures var plan := Plans.Revoke(token, rawClientID, grant, at);
            && (plan.Some? <==> token != "" && grant.Some? && NewIdentifier(rawClientID) == Some(grant.value.clientID))
            && (plan.Some? ==>
                  plan.value == PlanRevoke(grant.value.familyID, at,
                                           Withdrawal(DigestCredential(token), grant.value.clientID)))
  {
    hide NewIdentifier;
  }

  // -------------------------------------------------------------------------
  // Errors of the store
  // -------------------------------------------------------------------------

  /**
   A caller learns whether trying again may help: full, failing and malformed are temporary,
   and everything that is wrong with the credential looks the same.
   */
  lemma ErrorsTold(error: StoreError, code: ErrorCode, success: Reply)
    requires code != Temporary
    ensures ReplyTo(Err(error), code, success) == Failure(Temporary) <==> error in {Capacity, Invalid, Fault}
    ensures ReplyTo(Err(error), code, success) == Failure(code)
            <==> error in {NotFound, Consumed, Expired, Revoked, Conflict, Binding}
  {
  }
}
