/**
 The engine's operations between their reads and their commit (`pkg/oauthserver/engine.go`).
 A plan is computed from what was read and from what the environment answered; other calls
 may change the store before the planned commit reaches it.
 */
module Plans {
  import opened Scopes
  import opened Model
  import opened Transitions
  import opened StoreSpec
  import opened Config
  import opened Registry

  datatype ErrorCode =
    | InvalidRequest | InvalidClientMetadata | InvalidRedirectURI | InvalidScope | InvalidTarget
    | AccessDenied | InvalidGrant | Temporary

  /** Configuration, resources, the URL library and the `S256` challenge function. */
  datatype Deployment = Deployment(config: Settings, resources: Resources, urls: Urls, s256: string -> string)

  function MapStoreError(error: StoreError, code: ErrorCode): ErrorCode {
    match error
    case Capacity => Temporary
    case Conflict => code
    case Consumed => code
    case Expired => code
    case Revoked => code
    case Binding => code
    case NotFound => code
    case Invalid => Temporary
    case Fault => Temporary
  }

  function Lookup<K, V>(m: map<K, V>, k: K): Option<V> {
    if k in m then Some(m[k]) else None
  }

  // -------------------------------------------------------------------------
  // Identifiers and PKCE
  // -------------------------------------------------------------------------

  /** `newURLIdentifier`. */
  function NewURLIdentifier(raw: string, urls: Urls): Option<string> {
    if urls.absolute(TrimSpace(raw)) then Some(TrimSpace(raw)) else None
  }

  predicate IsVerifierChar(c: char) {
    IsAlphanumeric(c) || c == '-' || c == '.' || c == '_' || c == '~'
  }

  /** `ValidatePKCEVerifier`. */
  predicate ValidVerifier(verifier: string) {
    43 <= |verifier| <= 128 && forall i | 0 <= i < |verifier| :: IsVerifierChar(verifier[i])
  }

  /** `PKCEChallenge.Verify`. */
  predicate Verifies(challenge: PKCEChallenge, verifier: string, s256: string -> string) {
    ValidVerifier(verifier) && s256(verifier) == challenge.value
  }

  // -------------------------------------------------------------------------
  // BeginAuthorization
  // -------------------------------------------------------------------------

  datatype BeginInput = BeginInput(
    clientID: string, redirectURI: string, responseType: string, state: string,
    challenge: Option<PKCEChallenge>, scopes: seq<string>, resource: string)

  datatype Plan =
    | Refuse(code: ErrorCode)
    | PlanBegin(auth: Authorization, at: Time)
    | PlanLogin(login: LoginCommit, at: Time)
    | PlanDecide(decide: ConsentCommit, redirect: Reply, at: Time)
    | PlanExchange(spent: CredentialDigest, grant: Grant, response: TokenResponse)
    | PlanRotate(rotation: Rotation, response: TokenResponse)
    | PlanRevoke(family: RefreshFamilyID, at: Time, cause: Cause)

  /** Why a family is to be revoked: the token, the client that presented it, and a verdict if that was the reason. */
  datatype Cause =
    | Replay(token: CredentialDigest, clientID: ClientID)
    | Disqualified(token: CredentialDigest, clientID: ClientID, verdict: Revalidation)
    | Withdrawal(token: CredentialDigest, clientID: ClientID)

  datatype AccessGrant = AccessGrant(
    principal: Principal, clientID: ClientID, resource: ResourceID, scopes: ScopeSet, issuedAt: Time, expiresAt: Time)

  /** `access` is what the access token was issued for; the refresh token is the secret itself. */
  datatype TokenResponse = TokenResponse(
    access: AccessGrant, expiresIn: Duration, refreshToken: string, scopes: ScopeSet)

  /** What a call returns. `Revoke` hands the store's own error on, as `StoreFailure`. */
  datatype Reply =
    | Failure(code: ErrorCode)
    | StoreFailure(error: StoreError)
    | Done
    | RegisteredAs(client: Client)
    | Started(transaction: string, clientID: ClientID, redirectURI: RedirectURI, state: string)
    | SignedIn(consentToken: string)
    | Redirected(base: RedirectURI, state: string, rawCode: Option<string>)
    | Tokens(response: TokenResponse)

  /** `redirectResult`: back to the client with the code, or with `access_denied` when there is none. */
  function RedirectResult(base: RedirectURI, state: string, decision: Decision, rawCode: string): Reply {
    if decision != Approve then Redirected(base, state, None)
    else if rawCode == "" then Failure(InvalidRequest)
    else Redirected(base, state, Some(rawCode))
  }

  /** The PKCE challenge arrives parsed; `None` when `NewPKCEChallenge` refused it. */
  function Begin(d: Deployment, input: BeginInput, client: Option<Client>, token: Option<string>, now: Time): Plan {
    var clientID := NewIdentifier(input.clientID);
    var redirect := NewURLIdentifier(input.redirectURI, d.urls);
    var requested := FromValues(input.scopes);
    var resourceID := NewURLIdentifier(input.resource, d.urls);
    if clientID.None? || input.responseType != "code" || input.state == ""
       || |input.state| > d.config.http.maxFieldBytes then Refuse(InvalidRequest)
    else if redirect.None? || !d.urls.redirect(redirect.value) then Refuse(InvalidRedirectURI)
    else if input.challenge.None? then Refuse(InvalidRequest)
    else if requested.None? then Refuse(InvalidScope)
    else if resourceID.None? then Refuse(InvalidTarget)
    else if client.None? then Refuse(InvalidRequest)
    else if redirect.value !in client.value.redirectURIs then Refuse(InvalidRedirectURI)
    else if resourceID.value !in d.resources then Refuse(InvalidTarget)
    else
      var resource := d.resources[resourceID.value];
      if !IsSubsetOf(requested.value, client.value.allowedScopes)
         || !IsSubsetOf(requested.value, resource.supportedScopes)
         || !IsSubsetOf(requested.value, d.config.supportedScopes) then Refuse(InvalidScope)
      else if token.None? then Refuse(Temporary)
      else PlanBegin(
        Authorization(token.value, clientID.value, redirect.value, input.state, input.challenge.value,
                      requested.value, resourceID.value, now + d.config.transactionTTL, ZERO_TIME),
        now)
  }

  // -------------------------------------------------------------------------
  // CompleteLogin
  // -------------------------------------------------------------------------

  /** `checkedAt` and `now` are the two clock readings; `None` answers are failures of a dependency. */
  datatype LoginAnswers = LoginAnswers(
    checkedAt: Time, available: Option<ScopeSet>, token: Option<string>, now: Time)

  function CompleteLogin(d: Deployment, transaction: string, principal: Principal,
                         auth: Option<Authorization>, client: Option<Client>, a: LoginAnswers): Plan
  {
    if NewIdentifier(principal.subject).None? then Refuse(AccessDenied)
    else if auth.None? then Refuse(InvalidGrant)
    else if a.checkedAt > auth.value.expiresAt then Refuse(InvalidGrant)
    else if client.None? || auth.value.redirectURI !in client.value.redirectURIs then Refuse(InvalidGrant)
    else if auth.value.resource !in d.resources then Refuse(InvalidGrant)
    else if a.available.None? then Refuse(Temporary)
    else if a.token.None? then Refuse(Temporary)
    else
      var resource := d.resources[auth.value.resource];
      var allowed := Intersection(Intersection(Intersection(auth.value.requestedScopes, client.value.allowedScopes),
                                               resource.supportedScopes), a.available.value);
      var snapshot := ClientSnapshot(client.value.id, client.value.displayName, client.value.trust,
                                     auth.value.redirectURI);
      PlanLogin(
        LoginCommit(DigestCredential(transaction),
                    Consent(a.token.value, snapshot, auth.value.state, auth.value.challenge, principal, allowed,
                            auth.value.resource, a.now + d.config.refreshTTL, a.now + d.config.consentTTL, ZERO_TIME)),
        a.now)
  }

  // -------------------------------------------------------------------------
  // DecideConsent
  // -------------------------------------------------------------------------

  datatype DecideAnswers = DecideAnswers(checkedAt: Time, code: Option<string>, now: Time)

  const NO_PRINCIPAL: Principal := Principal("", "", "", 0, "")
  /** The zero value that a denial carries. */
  const NO_CODE: Code := Code(ZeroDigest, "", "", PKCEChallenge("", ""), NO_PRINCIPAL, [], "", "", ZERO_TIME,
                              ZERO_TIME, ZERO_TIME)

  function DecideConsent(d: Deployment, token: string, decision: Decision, selected: seq<string>,
                         consent: Option<Consent>, a: DecideAnswers): Plan
  {
    var scopes := FromValues(selected);
    if consent.None? then Refuse(InvalidGrant)
    else if a.checkedAt > consent.value.expiresAt then Refuse(InvalidGrant)
    else if decision == Undecided then Refuse(InvalidRequest)
    else if scopes.None? then Refuse(InvalidScope)
    else if decision == Approve && !IsSubsetOf(scopes.value, consent.value.allowedScopes) then Refuse(InvalidScope)
    else if decision == Deny then
      var c := consent.value;
      PlanDecide(ConsentCommit(DigestCredential(token), NO_CODE, Deny),
                 RedirectResult(c.client.redirectURI, c.state, Deny, ""), a.now)
    else if a.code.None? then Refuse(Temporary)
    else
      var c := consent.value;
      PlanDecide(
        ConsentCommit(DigestCredential(token),
                      Code(DigestCredential(a.code.value), c.client.id, c.client.redirectURI, c.challenge, c.principal,
                           scopes.value, c.resource, c.state, c.authorizationEnds, a.now + d.config.codeTTL, ZERO_TIME),
                      Approve),
        RedirectResult(c.client.redirectURI, c.state, Approve, a.code.value),
        a.now)
  }

  // -------------------------------------------------------------------------
  // ExchangeCode
  // -------------------------------------------------------------------------

  datatype ExchangeInput = ExchangeInput(code: string, clientID: string, redirectURI: string, verifier: string)

  datatype ExchangeAnswers = ExchangeAnswers(
    checkedAt: Time, now: Time, issued: bool, token: Option<string>, family: Option<string>)

  /** The checks before the code is read. */
  predicate ExchangeWellFormed(d: Deployment, input: ExchangeInput) {
    && NewIdentifier(input.clientID).Some? && input.code != ""
    && NewURLIdentifier(input.redirectURI, d.urls).Some? && ValidVerifier(input.verifier)
  }

  /** `GetCodeForExchange`: the stored code, when it is bound to the client and redirect of the input. */
  function BoundCode(d: Deployment, codes: map<CredentialDigest, Code>, input: ExchangeInput): Option<Code> {
    var clientID := NewIdentifier(input.clientID);
    var redirect := NewURLIdentifier(input.redirectURI, d.urls);
    var digest := DigestCredential(input.code);
    if clientID.Some? && redirect.Some? && digest in codes
       && codes[digest].clientID == clientID.value && codes[digest].redirectURI == redirect.value
    then Some(codes[digest]) else None
  }

  /** `code` is what `GetCodeForExchange` answered: bound to the client and redirect of the input. */
  function ExchangeCode(d: Deployment, input: ExchangeInput, code: Option<Code>, a: ExchangeAnswers): Plan {
    if !ExchangeWellFormed(d, input) then Refuse(InvalidGrant)
    else if code.None? then Refuse(InvalidGrant)
    else if a.checkedAt > code.value.expiresAt then Refuse(InvalidGrant)
    else if !Verifies(code.value.challenge, input.verifier, d.s256) then Refuse(InvalidGrant)
    else if !a.issued || a.token.None? || a.family.None? then Refuse(Temporary)
    else
      var k := code.value;
      PlanExchange(
        k.digest,
        Grant(DigestCredential(a.token.value), a.family.value, 0, k.clientID, k.principal, k.scopes, k.resource,
              k.authorizationEnds, ZERO_TIME, ZERO_TIME),
        TokenResponse(AccessGrant(k.principal, k.clientID, k.resource, k.scopes, a.now, a.now + d.config.accessTTL),
                      a.now + d.config.accessTTL - a.now, a.token.value, k.scopes))
  }

  // -------------------------------------------------------------------------
  // Refresh and Revoke
  // -------------------------------------------------------------------------

  datatype Status = Unknown | Eligible | Ineligible | OutOfRange
  datatype Revalidation = Revalidation(status: Status, principal: Principal)

  datatype RefreshAnswers = RefreshAnswers(
    now: Time, revalidation: Option<Revalidation>, available: Option<ScopeSet>, issued: bool, token: Option<string>)

  function Refresh(d: Deployment, token: string, rawClientID: string, grant: Option<Grant>, a: RefreshAnswers): Plan {
    var clientID := NewIdentifier(rawClientID);
    if clientID.None? || token == "" then Refuse(InvalidGrant)
    else if grant.None? then Refuse(InvalidGrant)
    else if grant.value.revokedAt != ZERO_TIME then Refuse(InvalidGrant)
    else if a.now > grant.value.expiresAt then Refuse(InvalidGrant)
    else if grant.value.clientID != clientID.value then Refuse(InvalidGrant)
    else if grant.value.consumedAt != ZERO_TIME then
      PlanRevoke(grant.value.familyID, a.now, Replay(DigestCredential(token), clientID.value))
    else if a.revalidation.None? then Refuse(Temporary)
    else if a.revalidation.value.status == Unknown then Refuse(Temporary)
    else if a.revalidation.value.status == Ineligible then
      PlanRevoke(grant.value.familyID, a.now,
                 Disqualified(DigestCredential(token), clientID.value, a.revalidation.value))
    else if a.revalidation.value.status == OutOfRange then Refuse(Temporary)
    else
      var g, principal := grant.value, a.revalidation.value.principal;
      if principal.subject == "" || principal.subject != g.principal.subject then Refuse(Temporary)
      else if g.resource !in d.resources then Refuse(InvalidGrant)
      else if a.available.None? then Refuse(Temporary)
      else if !a.issued || a.token.None? then Refuse(Temporary)
      else
        var scopes := Intersection(g.scopes, a.available.value);
        PlanRotate(
          Rotation(g.digest, g.familyID, g.generation,
                   Grant(DigestCredential(a.token.value), g.familyID, Increment(g.generation), g.clientID, principal,
                         scopes, g.resource, g.expiresAt, ZERO_TIME, ZERO_TIME)),
          TokenResponse(AccessGrant(principal, g.clientID, g.resource, scopes, a.now, a.now + d.config.accessTTL),
                        a.now + d.config.accessTTL - a.now, a.token.value, scopes))
  }

  /** `None` when the call returns at once, doing nothing. */
  function Revoke(token: string, rawClientID: string, grant: Option<Grant>, at: Time): Option<Plan> {
    var clientID := NewIdentifier(rawClientID);
    if clientID.None? || token == "" || grant.None? || grant.value.clientID != clientID.value then None
    else Some(PlanRevoke(grant.value.familyID, at, Withdrawal(DigestCredential(token), clientID.value)))
  }

  // -------------------------------------------------------------------------
  // Committing a plan
  // -------------------------------------------------------------------------

  function ReplyTo(r: Outcome, code: ErrorCode, success: Reply): Reply {
    if r.Ok? then success else Failure(MapStoreError(r.error, code))
  }

  /** The store call that a plan ends in. */
  function CallOf(plan: Plan, pruneAt: Time, now: Time): Event
    requires !plan.Refuse?
  {
    match plan
    case PlanBegin(auth, _) => Create(auth, pruneAt)
    case PlanLogin(login, _) => StoreSpec.Login(login, pruneAt, now)
    case PlanDecide(decide, _, _) => Decide(decide, pruneAt, now)
    case PlanExchange(spent, grant, _) => Exchange(ExchangeCommit(spent, Some(grant)), pruneAt, now)
    case PlanRotate(rotation, _) => Rotate(rotation, pruneAt, now)
    case PlanRevoke(family, at, _) => StoreSpec.Revoke(family, at)
  }

  /** What the caller is told when the commit answers `r`. */
  function ReplyOf(plan: Plan, r: Outcome): Reply {
    match plan
    case Refuse(code) => Failure(code)
    case PlanBegin(auth, _) =>
      ReplyTo(r, InvalidRequest, Started(auth.token, auth.clientID, auth.redirectURI, auth.state))
    case PlanLogin(login, _) => ReplyTo(r, InvalidGrant, SignedIn(login.consent.token))
    case PlanDecide(_, redirect, _) => ReplyTo(r, InvalidGrant, redirect)
    case PlanExchange(_, _, response) => ReplyTo(r, InvalidGrant, Tokens(response))
    case PlanRotate(_, response) => ReplyTo(r, InvalidGrant, Tokens(response))
    case PlanRevoke(_, _, cause) =>
      if cause.Withdrawal? then (if r.Ok? then Done else StoreFailure(r.error))
      else Failure(if r.Ok? then InvalidGrant else Temporary)
  }

  /** The store and the reply after a plan, when the store call goes through or fails outright. */
  ghost function Perform(s: State, plan: Plan, policy: StatePolicy, pruneAt: Time, now: Time, fault: bool)
    : (State, Reply)
  {
    if plan.Refuse? then (s, ReplyOf(plan, Ok))
    else if fault then (s, ReplyOf(plan, Err(Fault)))
    else
      var (s', r) := Apply(s, CallOf(plan, pruneAt, now), policy);
      (s', ReplyOf(plan, r))
  }

  // -------------------------------------------------------------------------
  // What plans guarantee
  // -------------------------------------------------------------------------

  /**
   A temporary failure of a code exchange or a refresh destroys no authority: whatever is
   still live afterwards was live before, and the other way round.
   */
  lemma TemporaryFailureKeepsLive(s: State, plan: Plan, policy: StatePolicy, pruneAt: Time, now: Time, fault: bool)
    requires plan.Refuse? || plan.PlanExchange? || plan.PlanRotate? || plan.PlanRevoke?
    requires pruneAt <= now
    requires Perform(s, plan, policy, pruneAt, now, fault).1 == Failure(Temporary)
    ensures Prune(Perform(s, plan, policy, pruneAt, now, fault).0, now) == Prune(s, now)
  {
    hide Prune, CommitCodeExchange, CommitRefreshRotation;
    if !plan.Refuse? && !plan.PlanRevoke? && !fault {
      var e := CallOf(plan, pruneAt, now);
      RefusalChangesNothingLive(s, e, policy);
      PruneAbsorbs(s, pruneAt, now);
    }
  }

  /**
   A refresh that reads one store and commits on another, whatever ran in between, newly
   revokes a grant only on replay, on an ineligible principal, or when the commit says so.
   */
  lemma RevocationHasCause(d: Deployment, read: State, token: string, clientID: string, a: RefreshAnswers,
                           s: State, policy: StatePolicy, pruneAt: Time, now: Time, fault: bool, g: CredentialDigest)
    requires g in s.refresh && s.refresh[g].revokedAt == ZERO_TIME
    requires var plan := Refresh(d, token, clientID, Lookup(read.refresh, DigestCredential(token)), a);
             var after := Perform(s, plan, policy, pruneAt, now, fault).0;
             g in after.refresh && after.refresh[g].revokedAt != ZERO_TIME
    ensures var grant := Lookup(read.refresh, DigestCredential(token));
            var plan := Refresh(d, token, clientID, grant, a);
            && !fault && grant.Some?
            && (|| (plan.PlanRevoke? && plan.cause.Replay? && grant.value.consumedAt != ZERO_TIME)
                || (plan.PlanRevoke? && plan.cause.Disqualified? && a.revalidation == Some(plan.cause.verdict)
                    && plan.cause.verdict.status == Ineligible)
                || (plan.PlanRotate? && Apply(s, Rotate(plan.rotation, pruneAt, now), policy).1 == Err(Revoked)))
  {
    hide NewIdentifier, Prune, RevokeRows, IsSubsetOf, CommitRefreshRotation, Intersection;
    var plan := Refresh(d, token, clientID, Lookup(read.refresh, DigestCredential(token)), a);
    if plan.PlanRotate? && !fault {
      if Apply(s, Rotate(plan.rotation, pruneAt, now), policy).1 != Err(Revoked) {
        RotationOutcomes(s, plan.rotation, policy, pruneAt, now, g);
      }
    }
  }

  /** A rotation that is not refused as revoked leaves no stored grant newly revoked. */
  lemma RotationOutcomes(s: State, rotation: Rotation, policy: StatePolicy, pruneAt: Time, now: Time,
                         g: CredentialDigest)
    requires g in s.refresh && s.refresh[g].revokedAt == ZERO_TIME && rotation.successor.revokedAt == ZERO_TIME
    requires Apply(s, Rotate(rotation, pruneAt, now), policy).1 != Err(Revoked)
    ensures g in Apply(s, Rotate(rotation, pruneAt, now), policy).0.refresh ==>
              Apply(s, Rotate(rotation, pruneAt, now), policy).0.refresh[g].revokedAt == ZERO_TIME
  {
    hide Prune, RevokeRows, ValidateRefreshRotation;
    PrunedRow(s, pruneAt, g);
  }

  lemma PrunedRow(s: State, t: Time, g: CredentialDigest)
    requires g in s.refresh
    ensures g in Prune(s, t).refresh ==> Prune(s, t).refresh[g] == s.refresh[g]
  {
  }

  // -------------------------------------------------------------------------
  // The engine against its own validators
  // -------------------------------------------------------------------------

  /**
   The records the engine builds meet every validator, whatever the commit's clock reading,
   exactly while the predecessor is unspent and live and the new record has not itself run
   out: nothing else can make a validator refuse them.
   */
  lemma LoginPlanValidates(d: Deployment, transaction: string, principal: Principal, auth: Authorization,
                           client: Client, a: LoginAnswers, now: Time)
    requires CompleteLogin(d, transaction, principal, Some(auth), Some(client), a).PlanLogin?
    requires client.id == auth.clientID
    ensures var consent := CompleteLogin(d, transaction, principal, Some(auth), Some(client), a).login.consent;
            ValidateLoginCommit(auth, consent, now) == Ok
            <==> auth.consumedAt == ZERO_TIME && now < auth.expiresAt
                 && now < a.now + d.config.consentTTL && now < a.now + d.config.refreshTTL
  {
    var consent := CompleteLogin(d, transaction, principal, Some(auth), Some(client), a).login.consent;
    assert principal.subject != "" by {
      assert NewIdentifier("").None?;
    }
    assert Elements(consent.allowedScopes) <= Elements(auth.requestedScopes);
  }

  lemma DecidePlanValidates(d: Deployment, token: string, decision: Decision, selected: seq<string>,
                            consent: Consent, a: DecideAnswers, now: Time)
    requires DecideConsent(d, token, decision, selected, Some(consent), a).PlanDecide?
    ensures ValidateConsentCommit(consent, DecideConsent(d, token, decision, selected, Some(consent), a).decide, now)
            == Ok
            <==> consent.consumedAt == ZERO_TIME && now < consent.expiresAt
                 && (decision == Approve ==> now < a.now + d.config.codeTTL)
  {
    hide FromValues, IsSubsetOf;
  }

  lemma ExchangePlanValidates(d: Deployment, input: ExchangeInput, code: Code, a: ExchangeAnswers, now: Time)
    requires ExchangeCode(d, input, Some(code), a).PlanExchange?
    ensures var plan := ExchangeCode(d, input, Some(code), a);
            ValidateCodeExchangeCommit(code, ExchangeCommit(plan.spent, Some(plan.grant)), now) == Ok
            <==> code.consumedAt == ZERO_TIME && now < code.expiresAt && now < code.authorizationEnds
                 && a.family.value != ""
  {
    hide Text, Verifies, ExchangeWellFormed;
  }

  lemma RefreshPlanValidates(d: Deployment, token: string, clientID: string, grant: Grant, a: RefreshAnswers, now: Time)
    requires Refresh(d, token, clientID, Some(grant), a).PlanRotate?
    ensures ValidateRefreshRotation(grant, Refresh(d, token, clientID, Some(grant), a).rotation, now) == Ok
            <==> now < grant.expiresAt
  {
    hide NewIdentifier;
    var plan := Refresh(d, token, clientID, Some(grant), a);
    assert Elements(plan.rotation.successor.scopes) <= Elements(grant.scopes);
  }

  /** A refresh presented with a spent token through its own client plans the revocation of the family. */
  lemma ReplayPlansRevocation(d: Deployment, token: string, clientID: string, grant: Grant, a: RefreshAnswers)
    requires NewIdentifier(clientID) == Some(grant.clientID) && token != ""
    requires grant.consumedAt != ZERO_TIME && a.now <= grant.expiresAt
    ensures Refresh(d, token, clientID, Some(grant), a)
            == if grant.revokedAt != ZERO_TIME then Refuse(InvalidGrant)
               else PlanRevoke(grant.familyID, a.now, Replay(DigestCredential(token), grant.clientID))
  {
    hide NewIdentifier, Intersection;
  }
}
