/**
 What every token of every run of the server stands for, in terms of the requests that were
 made: who asked, who logged in, what was selected, which verifier was shown, and who
 presented what.
 */
module EngineTokens {
  import opened Scopes
  import opened Model
  import opened StoreSpec
  import opened StoreRuns
  import opened StoreSafety
  import opened FamilySafety
  import opened Config
  import opened Plans
  import opened Requests
  import opened Books
  import opened EngineRuns
  import opened EngineSafety

  // -------------------------------------------------------------------------
  // The requests behind a family
  // -------------------------------------------------------------------------

  datatype Flow = Flow(begin: Request, login: Request, approval: Request, exchange: Request)

  /** The records behind a family are known, and so are the requests they answer. */
  ghost predicate HasFlow(past: Past, requests: Requested, family: RefreshFamilyID) {
    && family in past.families && past.families[family].chain != []
    && past.families[family].chain[0] in past.grants && past.families[family].chain[0] in requests
    && past.families[family].code in past.codes && past.families[family].code in requests
    && var consent := past.codes[past.families[family].code].consent;
    && consent in past.consents && consent in requests
    && past.consents[consent].transaction in past.auths && past.consents[consent].transaction in requests
    && requests[past.families[family].chain[0]].Redeem? && requests[past.families[family].code].Resolve?
    && requests[consent].LogIn? && requests[past.consents[consent].transaction].Authorize?
  }

  ghost function FlowOf(past: Past, requests: Requested, family: RefreshFamilyID): (flow: Flow)
    requires HasFlow(past, requests, family)
    ensures flow.begin.Authorize? && flow.login.LogIn? && flow.approval.Resolve? && flow.exchange.Redeem?
  {
    var f := past.families[family];
    var consent := past.codes[f.code].consent;
    Flow(requests[past.consents[consent].transaction], requests[consent], requests[f.code], requests[f.chain[0]])
  }

  /** Each request presents the secret that the one before it was given. */
  predicate Handover(flow: Flow)
    requires flow.begin.Authorize? && flow.login.LogIn? && flow.approval.Resolve? && flow.exchange.Redeem?
  {
    && flow.begin.transaction == Some(flow.login.presented)
    && flow.login.login.token == Some(flow.approval.presented)
    && flow.approval.consent.code == Some(flow.exchange.exchange.code)
  }

  /** The answer that the scope policy gave at a refresh. */
  function AnsweredTo(requests: Requested, k: CredentialDigest): set<Scope> {
    if k in requests && requests[k].Renew? && requests[k].renewal.available.Some?
    then Elements(requests[k].renewal.available.value) else {}
  }

  /** The scope was selected, and answered again at each refresh up to this generation. */
  ghost predicate Carried(past: Past, requests: Requested, family: RefreshFamilyID, generation: nat, s: Scope)
    requires HasFlow(past, requests, family) && generation < |past.families[family].chain|
  {
    && s in Listed(FlowOf(past, requests, family).approval.selected)
    && forall m | 0 < m <= generation :: s in AnsweredTo(requests, past.families[family].chain[m])
  }

  /** The client that a request names, and the refresh token it presents, if it is a refresh. */
  predicate MadeBy(r: Request, id: ClientID) {
    (r.Redeem? && NewIdentifier(r.exchange.clientID) == Some(id)) || (r.Renew? && NewIdentifier(r.clientID) == Some(id))
  }

  /** The first request for tokens exchanged the code; every later one presented the token before. */
  ghost predicate Follows(past: Past, k: CredentialDigest, r: Request)
    requires k in past.grants
  {
    if past.grants[k].generation == 0 then r.Redeem?
    else
      && r.Renew? && DigestCredential(r.presented) in past.grants
      && past.grants[DigestCredential(r.presented)].familyID == past.grants[k].familyID
      && past.grants[DigestCredential(r.presented)].generation + 1 == past.grants[k].generation
  }

  /** Client, redirect URI, resource, challenge, user and selection are those of the requests. */
  ghost predicate Honours(d: Deployment, registered: map<ClientID, Client>, flow: Flow, g: Grant, r: Request)
    requires flow.begin.Authorize? && flow.login.LogIn? && flow.approval.Resolve? && flow.exchange.Redeem?
  {
    var begin, exchange := flow.begin.input, flow.exchange.exchange;
    && NewIdentifier(begin.clientID) == NewIdentifier(exchange.clientID) == Some(g.clientID) && MadeBy(r, g.clientID)
    && TrimSpace(exchange.redirectURI) == TrimSpace(begin.redirectURI) && TrimSpace(begin.resource) == g.resource
    && begin.challenge.Some? && Verifies(begin.challenge.value, exchange.verifier, d.s256)
    && g.principal.subject == flow.login.principal.subject
    && (g.generation == 0 ==> g.principal == flow.login.principal)
    && (g.generation > 0 ==>
          r.Renew? && r.renewal.revalidation.Some? && g.principal == r.renewal.revalidation.value.principal)
    && flow.approval.decision == Approve
    && g.clientID in registered && TrimSpace(begin.redirectURI) in registered[g.clientID].redirectURIs
    && g.resource in d.resources && flow.login.login.available.Some?
    && Listed(flow.approval.selected)
       <= Listed(begin.scopes) * Requestable(d, registered[g.clientID], g.resource)
          * Elements(flow.login.login.available.value)
  }

  /** What a caller was handed is a grant that answers its own request, with all that lies behind it. */
  ghost predicate TokenTraced(d: Deployment, past: Past, ledger: Ledger, x: Issue) {
    var k := DigestCredential(x.response.refreshToken);
    && k in past.grants && k in ledger.requests && ledger.requests[k] == x.request
    && var g := past.grants[k];
    && ResponseFits(d, g, Reading(x.request), x.response) && Traced(past, g) && Follows(past, k, x.request)
    && HasFlow(past, ledger.requests, g.familyID) && g.generation < |past.families[g.familyID].chain|
    && var flow := FlowOf(past, ledger.requests, g.familyID);
    && Handover(flow) && Honours(d, ledger.registered, flow, g, x.request)
    && (forall s :: s in x.response.scopes <==> Carried(past, ledger.requests, g.familyID, g.generation, s))
    && x.response.access.expiresAt
       < flow.begin.at + d.config.transactionTTL + d.config.refreshTTL + d.config.accessTTL
  }

  // -------------------------------------------------------------------------
  // From the books
  // -------------------------------------------------------------------------

  lemma FlowIsBooked(d: Deployment, w: World, ledger: Ledger, k: CredentialDigest, policy: StatePolicy)
    requires k in w.past.grants && Booked(d, w.past, ledger)
    requires Inv(w, policy)
    ensures var g := w.past.grants[k];
            && HasFlow(w.past, ledger.requests, g.familyID)
            && g.generation < |w.past.families[g.familyID].chain|
            && SameFamily(g, w.past.grants[w.past.families[g.familyID].chain[0]])
            && w.past.grants[w.past.families[g.familyID].chain[0]].generation == 0
            && (g.generation == 0 ==> w.past.families[g.familyID].chain[0] == k)
  {
    hide CredentialInv, RowsInv, GenerationsBounded, ActiveGrants;
    hide AuthFact, AuthFits, SessionFits, DecisionFits, Redeemable, FirstFits, SuccessorFits, IssuesBooked;
  }

  /** What the books say of each request of a flow. */
  lemma FlowFacts(d: Deployment, past: Past, ledger: Ledger, family: RefreshFamilyID)
    requires HasFlow(past, ledger.requests, family) && Booked(d, past, ledger)
    requires past.grants[past.families[family].chain[0]].generation == 0
             && past.grants[past.families[family].chain[0]].familyID == family
    ensures var flow, f := FlowOf(past, ledger.requests, family), past.families[family];
            var k := past.codes[f.code];
            var c := past.consents[k.consent];
            var a := past.auths[c.transaction];
            && Begins(d, flow.begin, a) && AuthFact(d, ledger.registered, a, flow.begin.at)
            && ConsentBooked(d, past.auths, ledger.registered, c, flow.login)
            && CodeBooked(d, past.consents, k, flow.approval)
            && Exchanges(d, past.codes, flow.exchange, f.code, past.grants[f.chain[0]])
            && c.transaction == DigestCredential(a.token) && k.consent == DigestCredential(c.session.token)
            && f.code == k.record.digest
  {
    hide AuthFact, AuthFits, SessionFits, DecisionFits, Redeemable, FirstFits, SuccessorFits, IssuesBooked;
  }

  lemma FlowHandsOver(d: Deployment, past: Past, ledger: Ledger, family: RefreshFamilyID)
    requires HasFlow(past, ledger.requests, family) && Booked(d, past, ledger)
    requires past.grants[past.families[family].chain[0]].generation == 0
             && past.grants[past.families[family].chain[0]].familyID == family
    ensures Handover(FlowOf(past, ledger.requests, family))
  {
    hide Booked, AuthFact, Redeemable, FirstFits, AuthFits;
    FlowFacts(d, past, ledger, family);
  }

  lemma GrantIsBooked(d: Deployment, past: Past, ledger: Ledger, k: CredentialDigest)
    requires k in past.grants && Booked(d, past, ledger)
    ensures k in ledger.requests
    ensures GrantBooked(d, past.codes, past.families, past.grants, past.grants[k], ledger.requests[k])
  {
    hide AuthsBooked, ConsentsBooked, CodesBooked, IssuesBooked, GrantBooked;
  }

  lemma TokenFollows(d: Deployment, past: Past, ledger: Ledger, k: CredentialDigest)
    requires k in past.grants && Booked(d, past, ledger)
    ensures k in ledger.requests && Follows(past, k, ledger.requests[k])
    ensures MadeBy(ledger.requests[k], past.grants[k].clientID)
    ensures past.grants[k].generation > 0 ==>
              && ledger.requests[k].renewal.revalidation.Some?
              && past.grants[k].principal == ledger.requests[k].renewal.revalidation.value.principal
  {
    hide Booked, NewIdentifier, TrimSpace;
    GrantIsBooked(d, past, ledger, k);
  }

  /** From transaction to first grant, field by field. */
  lemma FlowIsHonoured(d: Deployment, past: Past, ledger: Ledger, k: CredentialDigest)
    requires k in past.grants && HasFlow(past, ledger.requests, past.grants[k].familyID)
    requires var g, root := past.grants[k], past.families[past.grants[k].familyID].chain[0];
             SameFamily(g, past.grants[root]) && past.grants[root].generation == 0 && (g.generation == 0 ==> root == k)
    requires Traced(past, past.grants[k]) && Booked(d, past, ledger)
    ensures k in ledger.requests
    ensures var g := past.grants[k];
            Honours(d, ledger.registered, FlowOf(past, ledger.requests, g.familyID), g, ledger.requests[k])
  {
    hide Booked, NewIdentifier, TrimSpace, Elements, IsSubsetOf, Listed;
    var g := past.grants[k];
    FlowFacts(d, past, ledger, g.familyID);
    TokenFollows(d, past, ledger, k);
    var f := past.families[g.familyID];
    var code := past.codes[f.code];
    var c := past.consents[code.consent];
    var a := past.auths[c.transaction];
    assert Elements(code.record.scopes) <= Elements(c.session.allowedScopes);
    assert Elements(a.requestedScopes) <= Elements(d.config.supportedScopes) by {
      assert IsSubsetOf(a.requestedScopes, d.config.supportedScopes);
    }
  }

  /** A successor's scopes are those of the grant before it that the policy answered again. */
  lemma {:induction false} ScopesAreCarried(d: Deployment, past: Past, ledger: Ledger, family: RefreshFamilyID, n: nat)
    requires HasFlow(past, ledger.requests, family) && n < |past.families[family].chain|
    requires Chained(past.families, past.grants) && Booked(d, past, ledger)
    ensures past.families[family].chain[n] in past.grants
    ensures forall s :: s in past.grants[past.families[family].chain[n]].scopes
                        <==> Carried(past, ledger.requests, family, n, s)
    decreases n
  {
    hide Booked, Chained, NewIdentifier, Listed, FlowOf, AnsweredTo;
    var chain := past.families[family].chain;
    InChain(past, family, n);
    if n == 0 {
      FirstScopes(d, past, ledger, family);
    } else {
      ScopesAreCarried(d, past, ledger, family, n - 1);
      InChain(past, family, n - 1);
      NextScopes(d, past, ledger, family, n);
      forall s
        ensures s in past.grants[chain[n]].scopes <==> Carried(past, ledger.requests, family, n, s)
      {
        assert s in Elements(past.grants[chain[n]].scopes) <==> s in past.grants[chain[n]].scopes;
        assert s in Elements(past.grants[chain[n - 1]].scopes) <==> s in past.grants[chain[n - 1]].scopes;
        CarriedOn(past, ledger.requests, family, n, s);
      }
    }
  }

  lemma CarriedOn(past: Past, requests: Requested, family: RefreshFamilyID, n: nat, s: Scope)
    requires HasFlow(past, requests, family) && 0 < n < |past.families[family].chain|
    ensures Carried(past, requests, family, n, s)
            <==> Carried(past, requests, family, n - 1, s)
                 && s in AnsweredTo(requests, past.families[family].chain[n])
  {
    hide HasFlow, Listed, AnsweredTo;
  }

  lemma InChain(past: Past, family: RefreshFamilyID, n: nat)
    requires Chained(past.families, past.grants) && family in past.families && n < |past.families[family].chain|
    ensures past.families[family].chain[n] in past.grants
    ensures past.grants[past.families[family].chain[n]].familyID == family
    ensures past.grants[past.families[family].chain[n]].generation == n
  {
  }

  lemma FirstScopes(d: Deployment, past: Past, ledger: Ledger, family: RefreshFamilyID)
    requires HasFlow(past, ledger.requests, family) && Booked(d, past, ledger)
    requires past.grants[past.families[family].chain[0]].generation == 0
    requires past.grants[past.families[family].chain[0]].familyID == family
    ensures Elements(past.grants[past.families[family].chain[0]].scopes)
            == Listed(FlowOf(past, ledger.requests, family).approval.selected)
  {
    hide Booked, Elements, Listed, NewIdentifier, AuthFact, AuthFits, SessionFits, Redeemable;
    FlowFacts(d, past, ledger, family);
  }

  lemma NextScopes(d: Deployment, past: Past, ledger: Ledger, family: RefreshFamilyID, n: nat)
    requires family in past.families && 0 < n < |past.families[family].chain|
    requires Chained(past.families, past.grants) && Booked(d, past, ledger)
    ensures var k, p := past.families[family].chain[n], past.families[family].chain[n - 1];
            && k in past.grants && p in past.grants
            && Elements(past.grants[k].scopes) == Elements(past.grants[p].scopes) * AnsweredTo(ledger.requests, k)
  {
    hide Booked, Elements, NewIdentifier;
    InChain(past, family, n);
    InChain(past, family, n - 1);
    GrantIsBooked(d, past, ledger, past.families[family].chain[n]);
  }

  lemma FlowIsInTime(d: Deployment, past: Past, ledger: Ledger, x: Issue)
    requires x in ledger.issued && Booked(d, past, ledger)
    requires var k := DigestCredential(x.response.refreshToken);
             k in past.grants && Traced(past, past.grants[k])
             && HasFlow(past, ledger.requests, past.grants[k].familyID)
             && var root := past.families[past.grants[k].familyID].chain[0];
             past.grants[root].generation == 0 && past.grants[root].familyID == past.grants[k].familyID
    ensures var g := past.grants[DigestCredential(x.response.refreshToken)];
            x.response.access.expiresAt
            < FlowOf(past, ledger.requests, g.familyID).begin.at + d.config.transactionTTL + d.config.refreshTTL
              + d.config.accessTTL
  {
    hide Booked, Elements, Listed, NewIdentifier, TrimSpace, IsSubsetOf, Redeemable;
    FlowFacts(d, past, ledger, past.grants[DigestCredential(x.response.refreshToken)].familyID);
    IssueIsBooked(d, past, ledger, x);
  }

  lemma IssueIsBooked(d: Deployment, past: Past, ledger: Ledger, x: Issue)
    requires x in ledger.issued && Booked(d, past, ledger)
    ensures var k := DigestCredential(x.response.refreshToken);
            && k in past.grants && k in ledger.requests && ledger.requests[k] == x.request
            && ResponseFits(d, past.grants[k], Reading(x.request), x.response)
            && Reading(x.request) < past.grants[k].expiresAt
  {
    hide AuthsBooked, ConsentsBooked, CodesBooked, GrantsBooked, ResponseFits;
  }

  lemma TokenIsTraced(d: Deployment, e: Server, x: Issue)
    requires x in e.ledger.issued
    requires ServerInv(d, e)
    ensures TokenTraced(d, e.w.past, e.ledger, x)
  {
    hide ServerInv, Inv, Booked, Traced, SameFamily, Honours, Handover, Carried, HasFlow, Chained, Related;
    hide GenerationsBounded, RowsInv, CredentialInv, Follows;
    ServerParts(d, e);
    InvParts(e.w, d.config.statePolicy);
    IssueIsBooked(d, e.w.past, e.ledger, x);
    var k := DigestCredential(x.response.refreshToken);
    var g := e.w.past.grants[k];
    RecordIsTraced(e.w, k, d.config.statePolicy);
    FlowIsBooked(d, e.w, e.ledger, k, d.config.statePolicy);
    RootIsOfFamily(e.w.past, g.familyID, e.ledger.requests);
    FlowHandsOver(d, e.w.past, e.ledger, g.familyID);
    FlowIsHonoured(d, e.w.past, e.ledger, k);
    TokenFollows(d, e.w.past, e.ledger, k);
    ScopesAreCarried(d, e.w.past, e.ledger, g.familyID, g.generation);
    PlaceInChain(e.w.past, k);
    FlowIsInTime(d, e.w.past, e.ledger, x);
  }

  lemma RootIsOfFamily(past: Past, family: RefreshFamilyID, requests: Requested)
    requires HasFlow(past, requests, family) && Chained(past.families, past.grants)
    ensures past.grants[past.families[family].chain[0]].familyID == family
  {
  }

  lemma PlaceInChain(past: Past, k: CredentialDigest)
    requires k in past.grants && Chained(past.families, past.grants)
    ensures past.grants[k].familyID in past.families
    ensures past.grants[k].generation < |past.families[past.grants[k].familyID].chain|
    ensures past.families[past.grants[k].familyID].chain[past.grants[k].generation] == k
  {
  }

  /**
   Whatever calls interleave, what a caller was handed is a grant and an access token that
   answer its own request. Behind them lie one authorization request, one login, one approval
   and one exchange, each presenting the secret the one before it was given. Client, redirect
   URI and resource are those of the authorization request; the verifier shown matches its
   challenge; the subject is the one that logged in; each refresh was made by that client
   with the token before. The scopes are exactly those selected and answered again at each
   refresh so far, and lie within all that was requested, registered, supported and answered
   at login. The access token runs out within the sum of the lifetimes.
   */
  lemma TokensAreTraced(d: Deployment, now: Time, steps: seq<Step>)
    requires now > ZERO_TIME && ValidPolicy(d.config.statePolicy) && ServerLegal(d, Boot(now), steps)
    ensures var e := ServerRun(d, Boot(now), steps);
            forall x | x in e.ledger.issued :: TokenTraced(d, e.w.past, e.ledger, x)
  {
    hide ServerInv, ServerLegal, ServerRun, TokenTraced;
    EngineIsLegal(d, now, steps);
    var e := ServerRun(d, Boot(now), steps);
    forall x | x in e.ledger.issued
      ensures TokenTraced(d, e.w.past, e.ledger, x)
    {
      TokenIsTraced(d, e, x);
    }
  }
}
