/**
 The engine (`pkg/oauthserver/engine.go`) driving the in-memory store: every operation with
 its checks, reads and commit in source order. Clock readings and the answers of the other
 dependencies are parameters. Each contract says that the operation performs its plan; what
 the plan is, and when there is one, is said of the input in `Requests`.
 */
module Engine {
  import opened Scopes
  import opened Model
  import opened Transitions
  import opened Config
  import opened Plans
  import Spec = StoreSpec
  import MemoryStore

  datatype RegisterInput = RegisterInput(displayName: string, redirectURIs: seq<string>, scopes: seq<string>)

  predicate RedirectAccepted(d: Deployment, raw: string) {
    var uri := TrimSpace(raw);
    d.urls.absolute(uri) && d.urls.redirect(uri) && |uri| <= d.config.statePolicy.registration.maxRedirectBytes
  }

  /** An omitted scope list asks for everything the server supports. */
  function RequestedScopes(d: Deployment, input: RegisterInput): Option<ScopeSet> {
    if input.scopes == [] then Some(d.config.supportedScopes) else FromValues(input.scopes)
  }

  predicate DistinctTexts(s: seq<string>) {
    forall i, j | 0 <= i < j < |s| :: s[i] != s[j]
  }

  predicate MetadataAccepted(d: Deployment, input: RegisterInput) {
    var policy := d.config.statePolicy.registration;
    var scopes := RequestedScopes(d, input);
    && 0 < |input.displayName| <= policy.maxDisplayName
    && 0 < |input.redirectURIs| <= policy.maxRedirectURIs
    && (forall i | 0 <= i < |input.redirectURIs| :: RedirectAccepted(d, input.redirectURIs[i]))
    && DistinctTexts(TrimAll(input.redirectURIs))
    && scopes.Some? && |scopes.value| <= policy.maxScopeCount
    && IsSubsetOf(scopes.value, d.config.supportedScopes)
  }

  /** The error of metadata that is not accepted: the first check that fails decides. */
  function MetadataError(d: Deployment, input: RegisterInput): ErrorCode {
    var policy := d.config.statePolicy.registration;
    if !(0 < |input.displayName| <= policy.maxDisplayName) || !(0 < |input.redirectURIs| <= policy.maxRedirectURIs)
    then InvalidClientMetadata
    else if !(forall i | 0 <= i < |input.redirectURIs| :: RedirectAccepted(d, input.redirectURIs[i]))
         || !DistinctTexts(TrimAll(input.redirectURIs)) then InvalidRedirectURI
    else InvalidScope
  }

  function NewClient(d: Deployment, input: RegisterInput, id: ClientID, now: Time): Client
    requires RequestedScopes(d, input).Some?
  {
    Client(id, input.displayName, Unverified, TrimAll(input.redirectURIs), RequestedScopes(d, input).value, now, now)
  }

  /** The loop over the redirect URIs: `None` when one is invalid, too long or repeated. */
  method CollectRedirects(d: Deployment, raws: seq<string>) returns (r: Option<seq<RedirectURI>>)
    ensures r.Some? <==> (forall i | 0 <= i < |raws| :: RedirectAccepted(d, raws[i])) && DistinctTexts(TrimAll(raws))
    ensures r.Some? ==> r.value == TrimAll(raws)
  {
    hide TrimSpace, RedirectAccepted;
    var redirects: seq<RedirectURI> := [];
    var seen: set<RedirectURI> := {};
    for i := 0 to |raws|
      invariant redirects == TrimAll(raws)[..i] && DistinctTexts(redirects)
      invariant forall x :: x in seen <==> x in redirects
      invariant forall k | 0 <= k < i :: RedirectAccepted(d, raws[k])
    {
      var redirect := TrimSpace(raws[i]);
      if !RedirectAccepted(d, raws[i]) {
        return None;
      }
      if redirect in seen {
        var k :| 0 <= k < i && redirects[k] == redirect;
        assert TrimAll(raws)[k] == TrimAll(raws)[i];
        return None;
      }
      seen := seen + {redirect};
      redirects := redirects + [redirect];
    }
    r := Some(redirects);
  }

  class Engine {
    const deployment: Deployment
    const store: MemoryStore.Store

    constructor (deployment: Deployment, store: MemoryStore.Store)
      ensures this.deployment == deployment && this.store == store
    {
      this.deployment, this.store := deployment, store;
    }

    function Policy(): StatePolicy {
      deployment.config.statePolicy
    }

    method RegisterClient(input: RegisterInput, id: Option<ClientID>, now: Time) returns (r: Reply)
      modifies store
      ensures !MetadataAccepted(deployment, input) ==>
                r == Failure(MetadataError(deployment, input)) && store.Contents() == old(store.Contents())
      ensures MetadataAccepted(deployment, input) && id.None? ==>
                r == Failure(Temporary) && store.Contents() == old(store.Contents())
      ensures MetadataAccepted(deployment, input) && id.Some? ==>
                var (s, outcome) := Spec.Apply(old(store.Contents()),
                                               Spec.Register(NewClient(deployment, input, id.value, now), now),
                                               Policy());
                && store.Contents() == s
                && r == ReplyTo(outcome, InvalidClientMetadata,
                                RegisteredAs(NewClient(deployment, input, id.value, now)))
    {
      hide RedirectAccepted, FromValues, IsSubsetOf, Spec.Evict, DistinctTexts, TrimAll;
      var policy := Policy().registration;
      if |input.displayName| == 0 || |input.displayName| > policy.maxDisplayName
         || |input.redirectURIs| == 0 || |input.redirectURIs| > policy.maxRedirectURIs {
        return Failure(InvalidClientMetadata);
      }
      var redirects := CollectRedirects(deployment, input.redirectURIs);
      if redirects.None? {
        return Failure(InvalidRedirectURI);
      }
      var scopes: Option<ScopeSet> := Some(deployment.config.supportedScopes);
      if |input.scopes| != 0 {
        scopes := NewScopeSet(input.scopes);
      }
      if scopes.None? || |scopes.value| > policy.maxScopeCount
         || !IsSubsetOf(scopes.value, deployment.config.supportedScopes) {
        return Failure(InvalidScope);
      }
      if id.None? {
        return Failure(Temporary);
      }
      var client := Client(id.value, input.displayName, Unverified, redirects.value, scopes.value, now, now);
      var outcome := store.RegisterClient(client, Policy(), now);
      r := ReplyTo(outcome, InvalidClientMetadata, RegisteredAs(client));
    }

    /** The client is touched before the transaction is created, whether or not a token can be drawn. */
    method BeginAuthorization(input: BeginInput, touchedAt: Time, token: Option<string>, now: Time, pruneAt: Time)
      returns (r: Reply)
      modifies store
      ensures var s := old(store.Contents());
              var clientID := NewIdentifier(input.clientID);
              var client := if clientID.Some? then Lookup(s.clients, clientID.value) else None;
              var plan := Begin(deployment, input, client, token, now);
              if plan.Refuse? && plan.code != Temporary then store.Contents() == s && r == Failure(plan.code)
              else (store.Contents(), r)
                   == Perform(Spec.TouchClient(s, clientID.value, touchedAt).0, plan, Policy(), pruneAt, pruneAt, false)
    {
      hide NewIdentifier, NewURLIdentifier, IsSubsetOf, Spec.Prune, Spec.CreateAuthorization;
      var clientID := NewIdentifier(input.clientID);
      if clientID.None? || input.responseType != "code" || input.state == ""
         || |input.state| > deployment.config.http.maxFieldBytes {
        return Failure(InvalidRequest);
      }
      var redirect := NewURLIdentifier(input.redirectURI, deployment.urls);
      if redirect.None? || !deployment.urls.redirect(redirect.value) {
        return Failure(InvalidRedirectURI);
      }
      if input.challenge.None? {
        return Failure(InvalidRequest);
      }
      var requested := NewScopeSet(input.scopes);
      if requested.None? {
        return Failure(InvalidScope);
      }
      hide FromValues;
      var resourceID := NewURLIdentifier(input.resource, deployment.urls);
      if resourceID.None? {
        return Failure(InvalidTarget);
      }
      var client := store.GetClient(clientID.value);
      if client.None? {
        return Failure(InvalidRequest);
      }
      if redirect.value !in client.value.redirectURIs {
        return Failure(InvalidRedirectURI);
      }
      if resourceID.value !in deployment.resources {
        return Failure(InvalidTarget);
      }
      var resource := deployment.resources[resourceID.value];
      if !IsSubsetOf(requested.value, client.value.allowedScopes)
         || !IsSubsetOf(requested.value, resource.supportedScopes)
         || !IsSubsetOf(requested.value, deployment.config.supportedScopes) {
        return Failure(InvalidScope);
      }
      var touched := store.TouchClient(clientID.value, touchedAt);
      if touched.Err? {
        return ReplyTo(touched, InvalidRequest, Done);
      }
      if token.None? {
        return Failure(Temporary);
      }
      var auth := Authorization(token.value, clientID.value, redirect.value, input.state, input.challenge.value,
                                requested.value, resourceID.value, now + deployment.config.transactionTTL, ZERO_TIME);
      var outcome := store.CreateAuthorization(auth, Policy(), pruneAt);
      r := ReplyTo(outcome, InvalidRequest, Started(token.value, clientID.value, redirect.value, input.state));
    }

    method CompleteLogin(transaction: string, principal: Principal, a: LoginAnswers, pruneAt: Time, now: Time)
      returns (r: Reply)
      modifies store
      ensures var s := old(store.Contents());
              var auth := Lookup(s.authorizations, DigestCredential(transaction));
              var client := if auth.Some? then Lookup(s.clients, auth.value.clientID) else None;
              (store.Contents(), r)
              == Perform(s, Plans.CompleteLogin(deployment, transaction, principal, auth, client, a), Policy(),
                         pruneAt, now, false)
    {
      hide NewIdentifier, Spec.Prune, Spec.CommitLogin;
      if NewIdentifier(principal.subject).None? {
        return Failure(AccessDenied);
      }
      var digest := DigestCredential(transaction);
      var auth := store.GetAuthorization(digest);
      if auth.None? {
        return Failure(InvalidGrant);
      }
      if a.checkedAt > auth.value.expiresAt {
        return Failure(InvalidGrant);
      }
      var client := store.GetClient(auth.value.clientID);
      if client.None? || auth.value.redirectURI !in client.value.redirectURIs {
        return Failure(InvalidGrant);
      }
      if auth.value.resource !in deployment.resources {
        return Failure(InvalidGrant);
      }
      var resource := deployment.resources[auth.value.resource];
      if a.available.None? {
        return Failure(Temporary);
      }
      var allowed := Intersect(auth.value.requestedScopes, client.value.allowedScopes);
      allowed := Intersect(allowed, resource.supportedScopes);
      allowed := Intersect(allowed, a.available.value);
      hide Intersection;
      if a.token.None? {
        return Failure(Temporary);
      }
      var snapshot := ClientSnapshot(client.value.id, client.value.displayName, client.value.trust,
                                     auth.value.redirectURI);
      var consent := Consent(a.token.value, snapshot, auth.value.state, auth.value.challenge, principal, allowed,
                             auth.value.resource, a.now + deployment.config.refreshTTL,
                             a.now + deployment.config.consentTTL, ZERO_TIME);
      var outcome := store.CommitLogin(LoginCommit(digest, consent), Policy(), pruneAt, now);
      r := ReplyTo(outcome, InvalidGrant, SignedIn(a.token.value));
    }

    method DecideConsent(token: string, decision: Decision, selected: seq<string>, a: DecideAnswers, pruneAt: Time,
                         now: Time)
      returns (r: Reply)
      modifies store
      ensures var s := old(store.Contents());
              var consent := Lookup(s.consents, DigestCredential(token));
              (store.Contents(), r)
              == Perform(s, Plans.DecideConsent(deployment, token, decision, selected, consent, a), Policy(), pruneAt,
                         now, false)
    {
      hide Spec.Prune, Spec.CommitConsent, IsSubsetOf;
      var digest := DigestCredential(token);
      var consent := store.GetConsent(digest);
      if consent.None? {
        return Failure(InvalidGrant);
      }
      if a.checkedAt > consent.value.expiresAt {
        return Failure(InvalidGrant);
      }
      if decision != Approve && decision != Deny {
        return Failure(InvalidRequest);
      }
      var scopes := NewScopeSet(selected);
      hide FromValues;
      if scopes.None? {
        return Failure(InvalidScope);
      }
      if decision == Approve && !IsSubsetOf(scopes.value, consent.value.allowedScopes) {
        return Failure(InvalidScope);
      }
      var code := NO_CODE;
      var rawCode := "";
      if decision == Approve {
        if a.code.None? {
          return Failure(Temporary);
        }
        rawCode := a.code.value;
        code := Code(DigestCredential(rawCode), consent.value.client.id, consent.value.client.redirectURI,
                     consent.value.challenge, consent.value.principal, scopes.value, consent.value.resource,
                     consent.value.state, consent.value.authorizationEnds, a.now + deployment.config.codeTTL,
                     ZERO_TIME);
      }
      var outcome, _ := store.CommitConsent(ConsentCommit(digest, code, decision), Policy(), pruneAt, now);
      if outcome.Err? {
        return Failure(MapStoreError(outcome.error, InvalidGrant));
      }
      r := RedirectResult(consent.value.client.redirectURI, consent.value.state, decision, rawCode);
    }

    method ExchangeCode(input: ExchangeInput, a: ExchangeAnswers, pruneAt: Time, now: Time) returns (r: Reply)
      modifies store
      ensures var s := old(store.Contents());
              (store.Contents(), r)
              == Perform(s, Plans.ExchangeCode(deployment, input, BoundCode(deployment, s.codes, input), a), Policy(),
                         pruneAt, now, false)
    {
      hide NewIdentifier, NewURLIdentifier, ValidVerifier, Spec.Prune, Spec.CommitCodeExchange;
      var clientID := NewIdentifier(input.clientID);
      if clientID.None? || input.code == "" {
        return Failure(InvalidGrant);
      }
      var redirect := NewURLIdentifier(input.redirectURI, deployment.urls);
      if redirect.None? {
        return Failure(InvalidGrant);
      }
      if !ValidVerifier(input.verifier) {
        return Failure(InvalidGrant);
      }
      var code := store.GetCodeForExchange(DigestCredential(input.code), clientID.value, redirect.value);
      if code.None? {
        return Failure(InvalidGrant);
      }
      if a.checkedAt > code.value.expiresAt {
        return Failure(InvalidGrant);
      }
      if !Verifies(code.value.challenge, input.verifier, deployment.s256) {
        return Failure(InvalidGrant);
      }
      var k := code.value;
      var access := AccessGrant(k.principal, k.clientID, k.resource, k.scopes, a.now,
                                a.now + deployment.config.accessTTL);
      if !a.issued || a.token.None? || a.family.None? {
        return Failure(Temporary);
      }
      var grant := Grant(DigestCredential(a.token.value), a.family.value, 0, k.clientID, k.principal, k.scopes,
                         k.resource,
                         k.authorizationEnds, ZERO_TIME, ZERO_TIME);
      var outcome := store.CommitCodeExchange(ExchangeCommit(k.digest, Some(grant)), Policy(), pruneAt, now);
      r := ReplyTo(outcome, InvalidGrant,
                   Tokens(TokenResponse(access, access.expiresAt - a.now, a.token.value, k.scopes)));
    }

    method Refresh(token: string, rawClientID: string, a: RefreshAnswers, pruneAt: Time, now: Time) returns (r: Reply)
      modifies store
      ensures var s := old(store.Contents());
              (store.Contents(), r)
              == Perform(s, Plans.Refresh(deployment, token, rawClientID, Lookup(s.refresh, DigestCredential(token)),
                                          a),
                         Policy(), pruneAt, now, false)
    {
      hide NewIdentifier, Spec.Prune, Spec.CommitRefreshRotation, Spec.RevokeFamily;
      var clientID := NewIdentifier(rawClientID);
      if clientID.None? || token == "" {
        return Failure(InvalidGrant);
      }
      var found := store.GetRefreshGrant(DigestCredential(token));
      if found.None? {
        return Failure(InvalidGrant);
      }
      var grant := found.value;
      if grant.revokedAt != ZERO_TIME || a.now > grant.expiresAt || grant.clientID != clientID.value {
        return Failure(InvalidGrant);
      }
      if grant.consumedAt != ZERO_TIME {
        store.RevokeRefreshFamily(grant.familyID, a.now);
        return Failure(InvalidGrant);
      }
      if a.revalidation.None? {
        return Failure(Temporary);
      }
      var principal := a.revalidation.value.principal;
      match a.revalidation.value.status {
        case Unknown => return Failure(Temporary);
        case Ineligible =>
          store.RevokeRefreshFamily(grant.familyID, a.now);
          return Failure(InvalidGrant);
        case OutOfRange => return Failure(Temporary);
        case Eligible =>
          if principal.subject == "" || principal.subject != grant.principal.subject {
            return Failure(Temporary);
          }
      }
      if grant.resource !in deployment.resources {
        return Failure(InvalidGrant);
      }
      if a.available.None? {
        return Failure(Temporary);
      }
      var scopes := Intersect(grant.scopes, a.available.value);
      hide Intersection;
      var access := AccessGrant(principal, grant.clientID, grant.resource, scopes, a.now,
                                a.now + deployment.config.accessTTL);
      if !a.issued || a.token.None? {
        return Failure(Temporary);
      }
      var successor := Grant(DigestCredential(a.token.value), grant.familyID, Increment(grant.generation),
                             grant.clientID,
                             principal, scopes, grant.resource, grant.expiresAt, ZERO_TIME, ZERO_TIME);
      var rotation := Rotation(grant.digest, grant.familyID, grant.generation, successor);
      var outcome := store.CommitRefreshRotation(rotation, Policy(), pruneAt, now);
      r := ReplyTo(outcome, InvalidGrant,
                   Tokens(TokenResponse(access, access.expiresAt - a.now, a.token.value, scopes)));
    }

    method Revoke(token: string, rawClientID: string, at: Time) returns (r: Reply)
      modifies store
      ensures var s := old(store.Contents());
              var plan := Plans.Revoke(token, rawClientID, Lookup(s.refresh, DigestCredential(token)), at);
              (store.Contents(), r) == if plan.Some? then Perform(s, plan.value, Policy(), at, at, false) else (s, Done)
    {
      hide NewIdentifier, Spec.RevokeFamily;
      var clientID := NewIdentifier(rawClientID);
      if clientID.None? || token == "" {
        return Done;
      }
      var grant := store.GetRefreshGrant(DigestCredential(token));
      if grant.None? || grant.value.clientID != clientID.value {
        return Done;
      }
      store.RevokeRefreshFamily(grant.value.familyID, at);
      r := Done;
    }
  }
}
