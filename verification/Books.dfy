/**
 The ledger of a run: for every record that was ever inserted, the request whose call inserted
 it; and what was handed out. A book in order says that every record is what its request asked.
 */
module Books {
  import opened Scopes
  import opened Model
  import opened StoreSpec
  import opened StoreRuns
  import opened Config
  import opened Registry
  import opened Plans
  import opened Requests

  /** What a caller was handed, and what for. */
  datatype Issue = Issue(response: TokenResponse, request: Request)

  /** `requests` says for the digest of each record which request it answers. */
  datatype Ledger = Ledger(
    registered: map<ClientID, Client>, requests: map<CredentialDigest, Request>, issued: set<Issue>)

  /** The digest under which the commit of a plan inserts a record, if it inserts one. */
  function Inserted(plan: Plan): Option<CredentialDigest> {
    match plan
    case PlanBegin(auth, _) => Some(DigestCredential(auth.token))
    case PlanLogin(login, _) => Some(DigestCredential(login.consent.token))
    case PlanDecide(decide, _, _) => if decide.decision == Approve then Some(decide.code.digest) else None
    case PlanExchange(_, grant, _) => Some(grant.digest)
    case PlanRotate(rotation, _) => Some(rotation.successor.digest)
    case _ => None
  }

  function Handed(r: Request, reply: Reply): set<Issue> {
    if reply.Tokens? then {Issue(reply.response, r)} else {}
  }

  /** A commit that went through enters the record it inserted, and what its caller is told. */
  ghost function Book(ledger: Ledger, r: Request, plan: Plan): Ledger {
    var k := Inserted(plan);
    ledger.(requests := if k.Some? then ledger.requests[k.value := r] else ledger.requests,
            issued := ledger.issued + Handed(r, ReplyOf(plan, Ok)))
  }

  // -------------------------------------------------------------------------
  // A record and the request it answers
  // -------------------------------------------------------------------------

  /** A transaction asks for no more than its client, its resource and the server allow. */
  predicate AuthFact(d: Deployment, registered: map<ClientID, Client>, a: Authorization, at: Time) {
    && a.consumedAt == ZERO_TIME && a.expiresAt == at + d.config.transactionTTL
    && a.clientID in registered && a.redirectURI in registered[a.clientID].redirectURIs
    && a.resource in d.resources
    && IsSubsetOf(a.requestedScopes, registered[a.clientID].allowedScopes)
    && IsSubsetOf(a.requestedScopes, d.resources[a.resource].supportedScopes)
    && IsSubsetOf(a.requestedScopes, d.config.supportedScopes)
  }

  predicate Begins(d: Deployment, r: Request, auth: Authorization) {
    r.Authorize? && r.transaction == Some(auth.token) && AuthFits(d, r.input, auth.token, r.at, auth)
  }

  /** The login presented that transaction; the consent is its client's, as registered, and the user's. */
  ghost predicate LogsIn(d: Deployment, auths: Auths, registered: map<ClientID, Client>, r: Request,
                         tx: CredentialDigest, c: Consent)
  {
    && r.LogIn? && tx == DigestCredential(r.presented) && tx in auths && auths[tx].clientID in registered
    && SessionFits(d, auths[tx], registered[auths[tx].clientID], r.principal, r.login, c)
  }

  ghost predicate Decides(d: Deployment, consents: Sessions, r: Request, decide: ConsentCommit) {
    && r.Resolve? && decide.consent == DigestCredential(r.presented) && decide.consent in consents
    && DecisionFits(d, consents[decide.consent].session, r.decision, r.selected, r.consent, decide)
  }

  ghost predicate Exchanges(d: Deployment, codes: Records, r: Request, spent: CredentialDigest, g: Grant) {
    && r.Redeem? && spent == DigestCredential(r.exchange.code) && spent in codes
    && Redeemable(d, codes[spent].record, r.exchange, r.redemption.checkedAt)
    && FirstFits(codes[spent].record, r.redemption, g)
  }

  ghost predicate Renews(grants: Grants, r: Request, current: CredentialDigest, next: Grant) {
    && r.Renew? && current == DigestCredential(r.presented) && current in grants
    && NewIdentifier(r.clientID) == Some(grants[current].clientID)
    && SuccessorFits(grants[current], r.renewal, next)
  }

  /** The revocation was set off by that call, with that token, by that client. */
  predicate SetsOff(r: Request, cause: Cause) {
    && (r.Renew? || r.Withdraw?) && (r.Withdraw? <==> cause.Withdrawal?)
    && cause.token == DigestCredential(r.presented) && NewIdentifier(r.clientID) == Some(cause.clientID)
    && (cause.Disqualified? ==> r.renewal.revalidation == Some(cause.verdict))
  }

  /** The plan is what the request asks for, given the records of the past that it names. */
  ghost predicate PlanFits(d: Deployment, past: Past, registered: map<ClientID, Client>, r: Request, plan: Plan) {
    match plan
    case Refuse(_) => false
    case PlanBegin(auth, at) => Begins(d, r, auth) && at == r.at
    case PlanLogin(login, at) =>
      LogsIn(d, past.auths, registered, r, login.transaction, login.consent) && at == r.login.now
    case PlanDecide(decide, redirect, at) =>
      && Decides(d, past.consents, r, decide) && at == r.consent.now
      && RedirectFits(past.consents[decide.consent].session, r.decision, r.consent, redirect)
    case PlanExchange(spent, grant, response) =>
      && Exchanges(d, past.codes, r, spent, grant) && r.redemption.token == Some(response.refreshToken)
      && ResponseFits(d, grant, r.redemption.now, response)
    case PlanRotate(rotation, response) =>
      && Renews(past.grants, r, rotation.current, rotation.successor)
      && r.renewal.token == Some(response.refreshToken)
      && ResponseFits(d, rotation.successor, r.renewal.now, response)
    case PlanRevoke(_, at, cause) => SetsOff(r, cause) && at == Reading(r)
  }

  // -------------------------------------------------------------------------
  // A book in order
  // -------------------------------------------------------------------------

  type Requested = map<CredentialDigest, Request>

  ghost predicate AuthsBooked(d: Deployment, auths: Auths, registered: map<ClientID, Client>, requests: Requested) {
    forall k | k in auths ::
      && k == DigestCredential(auths[k].token)
      && k in requests && Begins(d, requests[k], auths[k]) && AuthFact(d, registered, auths[k], requests[k].at)
  }

  /** The login was in time for its transaction, and its own deadline lies ahead. */
  ghost predicate ConsentBooked(d: Deployment, auths: Auths, registered: map<ClientID, Client>, entry: ConsentEntry,
                                r: Request)
  {
    && LogsIn(d, auths, registered, r, entry.transaction, entry.session)
    && r.login.now < auths[entry.transaction].expiresAt && r.login.now < entry.session.authorizationEnds
  }

  ghost predicate ConsentsBooked(d: Deployment, auths: Auths, registered: map<ClientID, Client>, consents: Sessions,
                                 requests: Requested)
  {
    forall k | k in consents ::
      && k == DigestCredential(consents[k].session.token)
      && k in requests && ConsentBooked(d, auths, registered, consents[k], requests[k])
  }

  ghost predicate CodeBooked(d: Deployment, consents: Sessions, entry: CodeEntry, r: Request) {
    && Decides(d, consents, r, ConsentCommit(entry.consent, entry.record, Approve))
    && r.consent.now < consents[entry.consent].session.expiresAt
  }

  ghost predicate CodesBooked(d: Deployment, consents: Sessions, codes: Records, requests: Requested) {
    forall k | k in codes ::
      codes[k].record.digest == k && k in requests && CodeBooked(d, consents, codes[k], requests[k])
  }

  /** A first grant was exchanged for its family's code; any other succeeds the grant that was presented. */
  ghost predicate GrantBooked(d: Deployment, codes: Records, families: Families, grants: Grants, g: Grant, r: Request) {
    if g.generation == 0
    then g.familyID in families && Exchanges(d, codes, r, families[g.familyID].code, g)
    else
      && r.Renew? && Renews(grants, r, DigestCredential(r.presented), g)
      && grants[DigestCredential(r.presented)].generation + 1 == g.generation
  }

  ghost predicate GrantsBooked(d: Deployment, codes: Records, families: Families, grants: Grants, requests: Requested) {
    forall k | k in grants :: k in requests && GrantBooked(d, codes, families, grants, grants[k], requests[k])
  }

  /** What was handed out is the grant that answers the same request, and its access token. */
  ghost predicate IssuesBooked(d: Deployment, grants: Grants, requests: Requested, issued: set<Issue>) {
    forall x | x in issued ::
      var k := DigestCredential(x.response.refreshToken);
      && k in grants && k in requests && requests[k] == x.request
      && ResponseFits(d, grants[k], Reading(x.request), x.response) && Reading(x.request) < grants[k].expiresAt
  }

  ghost predicate Booked(d: Deployment, past: Past, ledger: Ledger) {
    && AuthsBooked(d, past.auths, ledger.registered, ledger.requests)
    && ConsentsBooked(d, past.auths, ledger.registered, past.consents, ledger.requests)
    && CodesBooked(d, past.consents, past.codes, ledger.requests)
    && GrantsBooked(d, past.codes, past.families, past.grants, ledger.requests)
    && IssuesBooked(d, past.grants, ledger.requests, ledger.issued)
  }

  lemma BookedParts(d: Deployment, past: Past, ledger: Ledger)
    requires Booked(d, past, ledger)
    ensures AuthsBooked(d, past.auths, ledger.registered, ledger.requests)
    ensures ConsentsBooked(d, past.auths, ledger.registered, past.consents, ledger.requests)
    ensures CodesBooked(d, past.consents, past.codes, ledger.requests)
    ensures GrantsBooked(d, past.codes, past.families, past.grants, ledger.requests)
    ensures IssuesBooked(d, past.grants, ledger.requests, ledger.issued)
  {
    hide AuthsBooked, ConsentsBooked, CodesBooked, GrantsBooked, IssuesBooked;
  }

  // -------------------------------------------------------------------------
  // Entering a record
  // -------------------------------------------------------------------------

  predicate Unused(past: Past, k: CredentialDigest) {
    k !in past.auths && k !in past.consents && k !in past.codes && k !in past.grants
  }

  /** A request under a new digest disturbs no other. */
  lemma RequestBooked(d: Deployment, past: Past, ledger: Ledger, k: CredentialDigest, r: Request)
    requires Booked(d, past, ledger) && Unused(past, k)
    ensures Booked(d, past, ledger.(requests := ledger.requests[k := r]))
  {
    hide AuthFact, Begins, ConsentBooked, CodeBooked, GrantBooked, ResponseFits;
  }

  lemma BookAuth(d: Deployment, past: Past, ledger: Ledger, auth: Authorization, r: Request)
    requires Booked(d, past, ledger) && Unused(past, DigestCredential(auth.token))
    requires Begins(d, r, auth) && AuthFact(d, ledger.registered, auth, r.at)
    ensures var k := DigestCredential(auth.token);
            Booked(d, past.(auths := past.auths[k := auth]), ledger.(requests := ledger.requests[k := r]))
  {
    hide AuthFact, Begins, ConsentsBooked, CodesBooked, GrantsBooked, IssuesBooked;
    var k := DigestCredential(auth.token);
    var requests := ledger.requests[k := r];
    RequestBooked(d, past, ledger, k, r);
    BookedParts(d, past, ledger.(requests := requests));
    NewAuth(d, past.auths, ledger.registered, requests, auth);
    ConsentsStay(d, past.auths, ledger.registered, past.consents, requests, k, auth);
  }

  lemma NewAuth(d: Deployment, auths: Auths, registered: map<ClientID, Client>, requests: Requested,
                auth: Authorization)
    requires AuthsBooked(d, auths, registered, requests) && DigestCredential(auth.token) in requests
    requires Begins(d, requests[DigestCredential(auth.token)], auth)
    requires AuthFact(d, registered, auth, requests[DigestCredential(auth.token)].at)
    ensures AuthsBooked(d, auths[DigestCredential(auth.token) := auth], registered, requests)
  {
    hide AuthFact, AuthFits;
  }

  lemma ConsentsStay(d: Deployment, auths: Auths, registered: map<ClientID, Client>, consents: Sessions,
                     requests: Requested, k: CredentialDigest, auth: Authorization)
    requires ConsentsBooked(d, auths, registered, consents, requests)
    requires k in auths ==> auths[k] == auth
    ensures ConsentsBooked(d, auths[k := auth], registered, consents, requests)
  {
    hide SessionFits;
  }

  lemma BookConsent(d: Deployment, past: Past, ledger: Ledger, login: LoginCommit, r: Request)
    requires Booked(d, past, ledger) && Unused(past, DigestCredential(login.consent.token))
    requires ConsentBooked(d, past.auths, ledger.registered, ConsentEntry(login.consent, login.transaction), r)
    ensures var k := DigestCredential(login.consent.token);
            Booked(d, past.(consents := past.consents[k := ConsentEntry(login.consent, login.transaction)]),
                   ledger.(requests := ledger.requests[k := r]))
  {
    hide AuthsBooked, ConsentBooked, CodesBooked, GrantsBooked, IssuesBooked;
    var k, entry := DigestCredential(login.consent.token), ConsentEntry(login.consent, login.transaction);
    var requests := ledger.requests[k := r];
    RequestBooked(d, past, ledger, k, r);
    BookedParts(d, past, ledger.(requests := requests));
    CodesStay(d, past.consents, past.codes, requests, k, entry);
  }

  lemma CodesStay(d: Deployment, consents: Sessions, codes: Records, requests: Requested, k: CredentialDigest,
                  entry: ConsentEntry)
    requires CodesBooked(d, consents, codes, requests)
    requires k in consents ==> consents[k] == entry
    ensures CodesBooked(d, consents[k := entry], codes, requests)
  {
    hide DecisionFits;
  }

  lemma BookCode(d: Deployment, past: Past, ledger: Ledger, decide: ConsentCommit, r: Request)
    requires Booked(d, past, ledger) && Unused(past, decide.code.digest)
    requires CodeBooked(d, past.consents, CodeEntry(decide.code, decide.consent), r)
    ensures var k := decide.code.digest;
            Booked(d, past.(codes := past.codes[k := CodeEntry(decide.code, decide.consent)]),
                   ledger.(requests := ledger.requests[k := r]))
  {
    hide AuthsBooked, ConsentsBooked, CodeBooked, GrantsBooked, IssuesBooked;
    var k, entry := decide.code.digest, CodeEntry(decide.code, decide.consent);
    var requests := ledger.requests[k := r];
    RequestBooked(d, past, ledger, k, r);
    BookedParts(d, past, ledger.(requests := requests));
    GrantsStay(d, past, past.(codes := past.codes[k := entry]), requests);
  }

  /** Codes and families that are added leave the grants in order. */
  lemma GrantsStay(d: Deployment, past: Past, past': Past, requests: Requested)
    requires GrantsBooked(d, past.codes, past.families, past.grants, requests)
    requires past'.grants == past.grants
    requires forall k | k in past.codes :: k in past'.codes && past'.codes[k] == past.codes[k]
    requires forall f | f in past.families :: f in past'.families && past'.families[f].code == past.families[f].code
    ensures GrantsBooked(d, past'.codes, past'.families, past'.grants, requests)
  {
    hide Redeemable, FirstFits, SuccessorFits;
  }

  lemma BookGrant(d: Deployment, past: Past, past': Past, ledger: Ledger, g: Grant, r: Request)
    requires past' == past.(families := past'.families, grants := past.grants[g.digest := g])
    requires forall f | f in past.families :: f in past'.families && past'.families[f].code == past.families[f].code
    requires Booked(d, past, ledger) && Unused(past, g.digest)
    requires GrantBooked(d, past.codes, past'.families, past'.grants, g, r)
    ensures Booked(d, past', ledger.(requests := ledger.requests[g.digest := r]))
  {
    hide AuthsBooked, ConsentsBooked, CodesBooked, GrantsBooked, IssuesBooked, GrantBooked;
    var requests := ledger.requests[g.digest := r];
    RequestBooked(d, past, ledger, g.digest, r);
    BookedParts(d, past, ledger.(requests := requests));
    GrantsStay(d, past, past.(families := past'.families), requests);
    NewGrant(d, past.codes, past'.families, past.grants, requests, g);
    IssuesStay(d, past.grants, requests, ledger.issued, g);
  }

  lemma NewGrant(d: Deployment, codes: Records, families: Families, grants: Grants, requests: Requested, g: Grant)
    requires GrantsBooked(d, codes, families, grants, requests) && g.digest !in grants && g.digest in requests
    requires GrantBooked(d, codes, families, grants[g.digest := g], g, requests[g.digest])
    ensures GrantsBooked(d, codes, families, grants[g.digest := g], requests)
  {
    hide Redeemable, FirstFits, SuccessorFits;
  }

  lemma IssuesStay(d: Deployment, grants: Grants, requests: Requested, issued: set<Issue>, g: Grant)
    requires IssuesBooked(d, grants, requests, issued) && g.digest !in grants
    ensures IssuesBooked(d, grants[g.digest := g], requests, issued)
  {
    hide ResponseFits;
  }

  lemma BookIssue(d: Deployment, past: Past, ledger: Ledger, x: Issue)
    requires Booked(d, past, ledger)
    requires var k := DigestCredential(x.response.refreshToken);
             && k in past.grants && k in ledger.requests && ledger.requests[k] == x.request
             && ResponseFits(d, past.grants[k], Reading(x.request), x.response)
             && Reading(x.request) < past.grants[k].expiresAt
    ensures Booked(d, past, ledger.(issued := ledger.issued + {x}))
  {
    hide AuthsBooked, ConsentsBooked, CodesBooked, GrantsBooked, ResponseFits;
  }
}
