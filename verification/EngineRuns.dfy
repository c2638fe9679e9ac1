/**
 Runs of the server: any number of engine calls in progress at once. A call first reads the
 store and prepares everything up to its commit; what it prepared is carried across while
 other calls run, and the commit comes as a later step. The ledger books what a caller
 could not see in the store: registrations, clock readings, verifiers, scope answers and the
 access tokens handed out.
 */
module EngineRuns {
  import opened Scopes
  import opened Model
  import opened Transitions
  import opened StoreSpec
  import opened StoreRuns
  import opened StoreSafety
  import opened FamilySafety
  import opened Config
  import opened Readings
  import opened Plans
  import opened Requests
  import opened Books
  import Engine

  /** What a call carries between its steps. `CompleteLogin` reads twice; `BeginAuthorization` calls the store twice. */
  datatype Local =
    | LoginRead(presented: string, principal: Principal, auth: Authorization, login: LoginAnswers)
    | Touching(request: Request, id: ClientID, plan: Plan)
    | Planned(request: Request, plan: Plan)

  /** A read sees the server's own store, or another that it cannot be told from. */
  type Source = Option<State>

  datatype Step =
    | Enroll(input: Engine.RegisterInput, id: ClientID, createdAt: Time, now: Time)
    | Begun(request: Request, read: Source)
    | Continued(i: nat, read: Source)
    | Touched(i: nat, touchedAt: Time, fault: bool)
    | Finished(i: nat, pruneAt: Time, now: Time, fault: bool)
    | Swept(now: Time)

  /** `drawn` maps every secret ever drawn to the number of the call that drew it. */
  datatype Server = Server(w: World, pending: map<nat, Local>, drawn: map<string, nat>, calls: nat, ledger: Ledger)

  ghost function Boot(now: Time): Server {
    Server(StoreRuns.Start(now), map[], map[], 0, Ledger(map[], map[], {}))
  }

  // -------------------------------------------------------------------------
  // The first step of a call
  // -------------------------------------------------------------------------

  function Maybe(s: Option<string>): set<string> {
    if s.Some? then {s.value} else {}
  }

  function Secrets(r: Request): set<string> {
    match r
    case Authorize(_, token, _) => Maybe(token)
    case LogIn(_, _, a) => Maybe(a.token)
    case Resolve(_, _, _, a) => Maybe(a.code)
    case Redeem(_, a) => Maybe(a.token) + Maybe(a.family)
    case Renew(_, _, a) => Maybe(a.token)
    case Withdraw(_, _, _) => {}
  }

  function Kept(r: Request, plan: Plan): Option<Local> {
    if plan.Refuse? then None else Some(Planned(r, plan))
  }

  /**
   What a call carries away from its first read; `None` when it returns at once. An
   authorization whose token could not be drawn still touches its client before it returns.
   */
  function Prepare(d: Deployment, s: State, r: Request): Option<Local> {
    match r
    case Authorize(input, token, at) =>
      var clientID := NewIdentifier(input.clientID);
      var plan := Begin(d, input, if clientID.Some? then Lookup(s.clients, clientID.value) else None, token, at);
      if clientID.None? || (plan.Refuse? && plan.code != Temporary) then None
      else Some(Touching(r, clientID.value, plan))
    case LogIn(presented, principal, a) =>
      var auth := Lookup(s.authorizations, DigestCredential(presented));
      if auth.Some? then Some(LoginRead(presented, principal, auth.value, a)) else None
    case Resolve(presented, decision, selected, a) =>
      Kept(r, DecideConsent(d, presented, decision, selected, Lookup(s.consents, DigestCredential(presented)), a))
    case Redeem(input, a) =>
      Kept(r, ExchangeCode(d, input, BoundCode(d, s.codes, input), a))
    case Renew(presented, clientID, a) =>
      Kept(r, Refresh(d, presented, clientID, Lookup(s.refresh, DigestCredential(presented)), a))
    case Withdraw(presented, clientID, at) =>
      var plan := Plans.Revoke(presented, clientID, Lookup(s.refresh, DigestCredential(presented)), at);
      if plan.Some? then Some(Planned(r, plan.value)) else None
  }

  /** The second read of `CompleteLogin`. */
  function Proceed(d: Deployment, s: State, l: Local): Option<Local>
    requires l.LoginRead?
  {
    Kept(LogIn(l.presented, l.principal, l.login),
         CompleteLogin(d, l.presented, l.principal, Some(l.auth), Lookup(s.clients, l.auth.clientID), l.login))
  }

  function PlanTime(plan: Plan): Time {
    match plan
    case Refuse(_) => ZERO_TIME
    case PlanBegin(_, at) => at
    case PlanLogin(_, at) => at
    case PlanDecide(_, _, at) => at
    case PlanExchange(_, _, response) => response.access.issuedAt
    case PlanRotate(_, response) => response.access.issuedAt
    case PlanRevoke(_, at, _) => at
  }

  // -------------------------------------------------------------------------
  // Steps
  // -------------------------------------------------------------------------

  predicate Committing(e: Server, step: Step) {
    && step.Finished? && step.i in e.pending && e.pending[step.i].Planned? && !e.pending[step.i].plan.Refuse?
  }

  predicate Touches(e: Server, step: Step) {
    step.Touched? && step.i in e.pending && e.pending[step.i].Touching?
  }

  /** Every row was once inserted, whatever became of it. */
  ghost predicate RowsKnown(s: State, past: Past) {
    && AuthsKnown(s.authorizations, past.auths) && ConsentsKnown(s.consents, past.consents)
    && CodesKnown(s.codes, past.codes) && GrantsKnown(s.refresh, past.families, past.grants)
  }

  /** The state holds what is live in the server's store, and no row that was never inserted. */
  ghost predicate Readable(e: Server, s: State) {
    Alike(e.w.store, s, e.w.now) && RowsKnown(s, e.w.past)
  }

  function Seen(e: Server, read: Source): State {
    if read.Some? then read.value else e.w.store
  }

  /** The clock goes forward, and no secret is drawn twice. */
  ghost predicate Possible(e: Server, step: Step) {
    match step
    case Enroll(_, id, _, now) => id !in e.drawn && e.w.now <= now
    case Begun(r, read) =>
      && Secrets(r) !! e.drawn.Keys && e.w.now <= Reading(r)
      && (read.Some? ==> Readable(e, read.value))
    case Continued(i, read) =>
      i in e.pending && e.pending[i].LoginRead? && (read.Some? ==> Readable(e, read.value))
    case Touched(_, _, _) => Touches(e, step)
    case Finished(i, pruneAt, now, _) =>
      Committing(e, step) && e.w.now <= pruneAt <= now && PlanTime(e.pending[i].plan) <= pruneAt
    case Swept(now) => e.w.now <= now
  }

  /** What the commit of a plan answers. */
  ghost function Answer(d: Deployment, e: Server, step: Step): Outcome
    requires Committing(e, step)
  {
    if step.fault then Err(Fault)
    else Apply(e.w.store, CallOf(e.pending[step.i].plan, step.pruneAt, step.now), d.config.statePolicy).1
  }

  /** The store call of a step, if it makes one. */
  ghost function Calls(d: Deployment, e: Server, step: Step): seq<Event> {
    match step
    case Enroll(input, id, createdAt, now) =>
      if Engine.MetadataAccepted(d, input) then [Register(Engine.NewClient(d, input, id, createdAt), now)] else []
    case Touched(i, touchedAt, fault) =>
      if Touches(e, step) && !fault then [Touch(e.pending[i].id, touchedAt)] else []
    case Finished(i, pruneAt, now, fault) =>
      if Committing(e, step) && !fault then [CallOf(e.pending[i].plan, pruneAt, now)] else []
    case Swept(now) => [Sweep(now)]
    case _ => []
  }

  /** The step's store call goes through. */
  ghost predicate CallSucceeds(d: Deployment, e: Server, step: Step) {
    Calls(d, e, step) != [] && Apply(e.w.store, Calls(d, e, step)[0], d.config.statePolicy).1.Ok?
  }

  ghost function Keep(pending: map<nat, Local>, i: nat, l: Option<Local>): map<nat, Local> {
    if l.Some? then pending[i := l.value] else pending - {i}
  }

  ghost function Draw(drawn: map<string, nat>, secrets: set<string>, i: nat): map<string, nat> {
    drawn + map s | s in secrets :: i
  }

  /** What a step changes besides the store; `ok` says whether its store call went through. */
  ghost function Moved(d: Deployment, e: Server, step: Step, ok: bool): Server {
    match step
    case Enroll(input, id, createdAt, _) =>
      e.(drawn := Draw(e.drawn, {id}, e.calls), calls := e.calls + 1,
         ledger := if ok && Engine.MetadataAccepted(d, input)
                   then e.ledger.(registered := e.ledger.registered[id := Engine.NewClient(d, input, id, createdAt)])
                   else e.ledger)
    case Begun(r, read) =>
      e.(pending := Keep(e.pending, e.calls, Prepare(d, Seen(e, read), r)),
         drawn := Draw(e.drawn, Secrets(r), e.calls), calls := e.calls + 1)
    case Continued(i, read) =>
      if i in e.pending && e.pending[i].LoginRead?
      then e.(pending := Keep(e.pending, i, Proceed(d, Seen(e, read), e.pending[i])))
      else e
    case Touched(i, _, _) =>
      if !Touches(e, step) then e
      else e.(pending := Keep(e.pending, i, if ok then Kept(e.pending[i].request, e.pending[i].plan) else None))
    case Finished(i, _, _, _) =>
      if !Committing(e, step) then e
      else e.(pending := e.pending - {i},
              ledger := if ok then Book(e.ledger, e.pending[i].request, e.pending[i].plan) else e.ledger)
    case Swept(_) => e
  }

  ghost function After(d: Deployment, e: Server, step: Step): Server {
    Moved(d, e, step, CallSucceeds(d, e, step)).(w := Run(e.w, Calls(d, e, step), d.config.statePolicy))
  }

  ghost function ServerRun(d: Deployment, e: Server, steps: seq<Step>): Server
    decreases |steps|
  {
    if steps == [] then e else ServerRun(d, After(d, e, steps[0]), steps[1..])
  }

  ghost predicate ServerLegal(d: Deployment, e: Server, steps: seq<Step>)
    decreases |steps|
  {
    steps == [] || (Possible(e, steps[0]) && ServerLegal(d, After(d, e, steps[0]), steps[1..]))
  }

  /** Every store call of a run, in order. */
  ghost function AllCalls(d: Deployment, e: Server, steps: seq<Step>): seq<Event>
    decreases |steps|
  {
    if steps == [] then [] else Calls(d, e, steps[0]) + AllCalls(d, After(d, e, steps[0]), steps[1..])
  }

  // -------------------------------------------------------------------------
  // The invariant
  // -------------------------------------------------------------------------

  /** The digest is of a secret that call `i` drew. */
  predicate Owned(drawn: map<string, nat>, i: nat, digest: CredentialDigest) {
    digest.DigestOf? && digest.raw in drawn && drawn[digest.raw] == i
  }

  /** The digest is of a secret drawn by a call that has made its commit. */
  predicate Settled(drawn: map<string, nat>, pending: set<nat>, digest: CredentialDigest) {
    digest.DigestOf? && digest.raw in drawn && drawn[digest.raw] !in pending
  }

  ghost predicate SecretsStored(past: Past, drawn: map<string, nat>, pending: set<nat>) {
    && (forall k | k in past.auths :: Settled(drawn, pending, k))
    && (forall k | k in past.consents :: Settled(drawn, pending, k))
    && (forall k | k in past.codes :: Settled(drawn, pending, k))
    && (forall k | k in past.grants :: Settled(drawn, pending, k))
    && (forall f | f in past.families :: Settled(drawn, pending, DigestOf(f)))
  }

  ghost predicate Numbered(e: Server) {
    && (forall s | s in e.drawn :: e.drawn[s] < e.calls)
    && (forall i | i in e.pending :: i < e.calls)
    && (forall id | id in e.ledger.registered :: id in e.drawn)
  }

  /** A stored client is as it was registered, but for its last use. */
  ghost predicate ClientsKnown(clients: map<ClientID, Client>, registered: map<ClientID, Client>) {
    forall id | id in clients ::
      && id in registered && clients[id].id == id
      && clients[id].(lastUsedAt := ZERO_TIME) == registered[id].(lastUsedAt := ZERO_TIME)
  }

  /**
   The token that gave cause is of the family and of the client that presented it; replayed
   it has a successor, disqualified a verdict.
   */
  ghost predicate CauseKnown(past: Past, family: RefreshFamilyID, cause: Cause) {
    && cause.token in past.grants && past.grants[cause.token].familyID == family && family in past.families
    && past.grants[cause.token].clientID == cause.clientID
    && (cause.Replay? ==> past.grants[cause.token].generation + 1 < |past.families[family].chain|)
    && (cause.Disqualified? ==> cause.verdict.status == Ineligible)
  }

  /** The successor that `Refresh` builds for a grant. */
  ghost predicate RotationFact(g: Grant, r: Rotation) {
    && r.familyID == g.familyID && r.generation == g.generation
    && r.successor == Grant(r.successor.digest, g.familyID, Increment(g.generation), g.clientID, r.successor.principal,
                            r.successor.scopes, g.resource, g.expiresAt, ZERO_TIME, ZERO_TIME)
    && r.successor.principal.subject == g.principal.subject
    && IsSubsetOf(r.successor.scopes, g.scopes)
  }

  ghost predicate PlanKnown(d: Deployment, past: Past, registered: map<ClientID, Client>, drawn: map<string, nat>,
                            i: nat, plan: Plan)
  {
    match plan
    case Refuse(_) => false
    case PlanBegin(auth, at) =>
      Owned(drawn, i, DigestCredential(auth.token)) && AuthFact(d, registered, auth, at)
    case PlanLogin(login, _) =>
      && Owned(drawn, i, DigestCredential(login.consent.token)) && login.consent.consumedAt == ZERO_TIME
      && login.transaction in past.auths && LoginBound(past.auths[login.transaction], login.consent)
    case PlanDecide(decide, _, _) =>
      && decide.consent in past.consents
      && (decide.decision == Approve ==>
            && Owned(drawn, i, decide.code.digest) && decide.code.consumedAt == ZERO_TIME
            && ConsentBound(past.consents[decide.consent].session, decide.code))
      && (decide.decision != Approve ==> decide.decision == Deny && decide.code.digest == ZeroDigest)
    case PlanExchange(spent, grant, _) =>
      && Owned(drawn, i, grant.digest) && Owned(drawn, i, DigestOf(grant.familyID))
      && spent in past.codes && ExchangeBound(past.codes[spent].record, grant) && grant.Active()
    case PlanRotate(rotation, _) =>
      && Owned(drawn, i, rotation.successor.digest)
      && rotation.current in past.grants && RotationFact(past.grants[rotation.current], rotation)
      && rotation.successor.familyID in past.families
    case PlanRevoke(family, at, cause) => CauseKnown(past, family, cause) && at > ZERO_TIME
  }

  ghost predicate LocalKnown(d: Deployment, past: Past, registered: map<ClientID, Client>, drawn: map<string, nat>,
                             i: nat, l: Local)
  {
    match l
    case LoginRead(presented, _, auth, a) =>
      && DigestCredential(presented) in past.auths
      && AuthCore(auth) == AuthCore(past.auths[DigestCredential(presented)])
      && (a.token.Some? ==> Owned(drawn, i, DigestCredential(a.token.value)))
    case Touching(r, id, plan) =>
      || plan.Refuse?
      || (plan.PlanBegin? && plan.auth.clientID == id && PlanKnown(d, past, registered, drawn, i, plan)
          && PlanFits(d, past, registered, r, plan))
    case Planned(r, plan) => PlanKnown(d, past, registered, drawn, i, plan) && PlanFits(d, past, registered, r, plan)
  }

  ghost predicate PendingKnown(d: Deployment, past: Past, registered: map<ClientID, Client>, drawn: map<string, nat>,
                               pending: map<nat, Local>)
  {
    forall i | i in pending :: LocalKnown(d, past, registered, drawn, i, pending[i])
  }

  ghost predicate ServerInv(d: Deployment, e: Server) {
    && Inv(e.w, d.config.statePolicy)
    && ClientsKnown(e.w.store.clients, e.ledger.registered)
    && SecretsStored(e.w.past, e.drawn, e.pending.Keys)
    && Numbered(e)
    && PendingKnown(d, e.w.past, e.ledger.registered, e.drawn, e.pending)
    && Booked(d, e.w.past, e.ledger)
  }

  // -------------------------------------------------------------------------
  // What a call carries away from its reads
  // -------------------------------------------------------------------------

  /** A prepared transaction is the one asked for, and no more than client, resource and server allow. */
  lemma BeginKnown(d: Deployment, s: State, registered: map<ClientID, Client>, input: BeginInput,
                   token: Option<string>, at: Time)
    requires ClientsKnown(s.clients, registered)
    ensures var clientID := NewIdentifier(input.clientID);
            var client := if clientID.Some? then Lookup(s.clients, clientID.value) else None;
            var plan := Begin(d, input, client, token, at);
            !plan.Refuse? ==>
              && plan.PlanBegin? && token == Some(plan.auth.token) && plan.at == at
              && AuthFits(d, input, plan.auth.token, at, plan.auth) && Some(plan.auth.clientID) == clientID
              && AuthFact(d, registered, plan.auth, at)
  {
    hide NewIdentifier, NewURLIdentifier, FromValues, IsSubsetOf, AuthFits, BeginInOrder, BeginError;
    var clientID := NewIdentifier(input.clientID);
    BeginExactly(d, input, if clientID.Some? then Lookup(s.clients, clientID.value) else None, token, at);
  }

  lemma LoginKnown(d: Deployment, presented: string, principal: Principal, auth: Authorization, client: Option<Client>,
                   a: LoginAnswers)
    requires client.Some? ==> client.value.id == auth.clientID
    ensures var plan := CompleteLogin(d, presented, principal, Some(auth), client, a);
            !plan.Refuse? ==>
              && plan.PlanLogin? && client.Some? && plan.at == a.now
              && SessionFits(d, auth, client.value, principal, a, plan.login.consent)
              && plan.login.transaction == DigestCredential(presented) && LoginBound(auth, plan.login.consent)
  {
    assert NewIdentifier("").None?;
    hide NewIdentifier;
    LoginExactly(d, presented, principal, Some(auth), client, a);
  }

  /** What is so of the transaction and the client as read is so of them as recorded. */
  lemma SessionAgain(d: Deployment, read: Authorization, auth: Authorization, client: Client, known: Client,
                     principal: Principal, a: LoginAnswers, c: Consent)
    requires AuthCore(read) == AuthCore(auth) && client.(lastUsedAt := ZERO_TIME) == known.(lastUsedAt := ZERO_TIME)
    requires SessionFits(d, read, client, principal, a, c)
    ensures SessionFits(d, auth, known, principal, a, c)
  {
    assert AuthCore(read).requestedScopes == AuthCore(auth).requestedScopes;
    assert client.(lastUsedAt := ZERO_TIME).allowedScopes == known.(lastUsedAt := ZERO_TIME).allowedScopes;
  }

  lemma ResolveKnown(d: Deployment, s: State, past: Past, presented: string, decision: Decision, selected: seq<string>,
                     a: DecideAnswers)
    requires ConsentsKnown(s.consents, past.consents)
    ensures var plan := DecideConsent(d, presented, decision, selected,
                                      Lookup(s.consents, DigestCredential(presented)), a);
            !plan.Refuse? ==>
              && plan.PlanDecide? && plan.at == a.now
              && Decides(d, past.consents, Resolve(presented, decision, selected, a), plan.decide)
              && RedirectFits(past.consents[plan.decide.consent].session, decision, a, plan.redirect)
              && (plan.decide.decision == Approve
                  ==> ConsentBound(past.consents[plan.decide.consent].session, plan.decide.code))
  {
    hide FromValues, IsSubsetOf, DecideConsent;
    var k := DigestCredential(presented);
    DecisionExactly(d, presented, decision, selected, Lookup(s.consents, k), a);
    if k in s.consents {
      DecisionAgain(d, s.consents[k], past.consents[k].session, decision, selected, a);
    }
  }

  lemma DecisionAgain(d: Deployment, read: Consent, c: Consent, decision: Decision, selected: seq<string>,
                      a: DecideAnswers)
    requires ConsentCore(read) == ConsentCore(c)
    ensures SelectionInOrder(read, decision, selected) <==> SelectionInOrder(c, decision, selected)
    ensures forall decide :: DecisionFits(d, read, decision, selected, a, decide)
                             <==> DecisionFits(d, c, decision, selected, a, decide)
    ensures forall reply :: RedirectFits(read, decision, a, reply) <==> RedirectFits(c, decision, a, reply)
    ensures forall k :: SelectionInOrder(c, Approve, selected) && CodeFits(d, c, selected, a, k) ==> ConsentBound(c, k)
  {
    hide ValidList, Listed;
    assert ConsentCore(read).allowedScopes == ConsentCore(c).allowedScopes;
  }

  lemma RedeemKnown(d: Deployment, s: State, past: Past, requests: Requested, input: ExchangeInput, a: ExchangeAnswers)
    requires CodesKnown(s.codes, past.codes) && CodesBooked(d, past.consents, past.codes, requests)
    ensures var plan := ExchangeCode(d, input, BoundCode(d, s.codes, input), a);
            !plan.Refuse? ==>
              && plan.PlanExchange? && a.token == Some(plan.response.refreshToken)
              && Exchanges(d, past.codes, Redeem(input, a), plan.spent, plan.grant)
              && ResponseFits(d, plan.grant, a.now, plan.response)
  {
    hide ExchangeCode, BoundCode, CodeBooked, Redeemable, FirstFits, ResponseFits;
    var k := DigestCredential(input.code);
    ExchangeExactly(d, input, s.codes, a);
    if k in s.codes {
      assert k in past.codes && past.codes[k].record.digest == k;
      RedemptionAgain(d, s.codes[k], past.codes[k].record, input, a);
    }
  }

  lemma RedemptionAgain(d: Deployment, read: Code, k: Code, input: ExchangeInput, a: ExchangeAnswers)
    requires read.(consumedAt := ZERO_TIME) == k.(consumedAt := ZERO_TIME)
    ensures Redeemable(d, read, input, a.checkedAt) <==> Redeemable(d, k, input, a.checkedAt)
    ensures forall g :: FirstFits(read, a, g) <==> FirstFits(k, a, g)
    ensures read.digest == k.digest
  {
    hide TrimSpace, NewIdentifier, ValidVerifier;
    assert read.(consumedAt := ZERO_TIME).scopes == k.(consumedAt := ZERO_TIME).scopes;
  }

  lemma RenewKnown(d: Deployment, rows: Grants, past: Past, presented: string, clientID: string, a: RefreshAnswers)
    requires Chained(past.families, past.grants) && GrantsKnown(rows, past.families, past.grants)
    requires a.now > ZERO_TIME
    ensures var plan := Refresh(d, presented, clientID, Lookup(rows, DigestCredential(presented)), a);
            || plan.Refuse?
            || (plan.PlanRevoke? && CauseKnown(past, plan.family, plan.cause) && plan.at == a.now
                && SetsOff(Renew(presented, clientID, a), plan.cause))
            || (&& plan.PlanRotate? && a.token == Some(plan.response.refreshToken)
                && Renews(past.grants, Renew(presented, clientID, a), plan.rotation.current, plan.rotation.successor)
                && RotationFact(past.grants[plan.rotation.current], plan.rotation)
                && plan.rotation.successor.familyID in past.families
                && ResponseFits(d, plan.rotation.successor, a.now, plan.response))
  {
    hide NewIdentifier, Refresh, ResponseFits;
    var k := DigestCredential(presented);
    RefreshExactly(d, presented, clientID, Lookup(rows, k), a);
    if k in rows {
      assert rows[k].(consumedAt := ZERO_TIME, revokedAt := ZERO_TIME) == past.grants[k];
      assert past.grants[k].digest == k;
      RenewalAgain(rows[k], past.grants[k], a);
    }
    hide Chained, GrantsKnown;
  }

  lemma RenewalAgain(read: Grant, g: Grant, a: RefreshAnswers)
    requires read.(consumedAt := ZERO_TIME, revokedAt := ZERO_TIME) == g
    ensures read.scopes == g.scopes && read.principal == g.principal
    ensures forall next :: SuccessorFits(read, a, next) ==> SuccessorFits(g, a, next)
    ensures forall next :: SuccessorFits(g, a, next) ==> IsSubsetOf(next.scopes, g.scopes)
  {
    assert read.scopes == read.(consumedAt := ZERO_TIME, revokedAt := ZERO_TIME).scopes;
  }

  lemma WithdrawKnown(rows: Grants, past: Past, presented: string, clientID: string, at: Time)
    requires Chained(past.families, past.grants) && GrantsKnown(rows, past.families, past.grants)
    ensures var plan := Plans.Revoke(presented, clientID, Lookup(rows, DigestCredential(presented)), at);
            plan.Some? ==>
              && plan.value.PlanRevoke? && plan.value.at == at
              && CauseKnown(past, plan.value.family, plan.value.cause)
              && SetsOff(Withdraw(presented, clientID, at), plan.value.cause)
  {
    hide NewIdentifier, Plans.Revoke;
    var k := DigestCredential(presented);
    RevokeExactly(presented, clientID, Lookup(rows, k), at);
    if k in rows {
      assert rows[k].(consumedAt := ZERO_TIME, revokedAt := ZERO_TIME) == past.grants[k];
    }
  }

  lemma AuthReadKnown(rows: Auths, auths: Auths, k: CredentialDigest)
    requires AuthsKnown(rows, auths) && k in rows
    ensures k in auths && AuthCore(rows[k]) == AuthCore(auths[k])
  {
  }

  lemma DrawOwns(drawn: map<string, nat>, secrets: set<string>, i: nat)
    ensures forall s | s in secrets :: Owned(Draw(drawn, secrets, i), i, DigestOf(s))
  {
  }

  lemma AlikeClients(a: State, b: State, now: Time)
    requires Alike(a, b, now)
    ensures b.clients == a.clients
  {
  }

  /** What the invariant says of every row that a call can read. */
  lemma RowsReadable(d: Deployment, e: Server, read: Source)
    requires read.Some? ==> Readable(e, read.value)
    requires ServerInv(d, e)
    ensures RowsKnown(Seen(e, read), e.w.past) && ClientsKnown(Seen(e, read).clients, e.ledger.registered)
    ensures Chained(e.w.past.families, e.w.past.grants)
    ensures CodesBooked(d, e.w.past.consents, e.w.past.codes, e.ledger.requests) && e.w.now > ZERO_TIME
  {
    hide Chained, Related, GenerationsBounded, GrantsKnown, WholeFamilies, Retained, AuthsKnown, ConsentsKnown;
    hide CodesKnown, Alike;
    hide TransactionsSpent, ConsentsSpent, CodesSpent, ActiveGrants, ClientsKnown, SecretsStored, Numbered;
    hide PendingKnown, AuthsBooked, ConsentsBooked, CodesBooked, GrantsBooked, IssuesBooked;
    if read.Some? {
      AlikeClients(e.w.store, read.value, e.w.now);
    }
  }

  /** Each part of a request's plan, put together. */
  lemma RequestKnown(d: Deployment, s: State, past: Past, registered: map<ClientID, Client>, requests: Requested,
                     r: Request, drawn: map<string, nat>, i: nat)
    requires Chained(past.families, past.grants) && CodesBooked(d, past.consents, past.codes, requests)
    requires RowsKnown(s, past) && ClientsKnown(s.clients, registered)
    requires Reading(r) > ZERO_TIME && Prepare(d, s, r).Some?
    requires forall x | x in Secrets(r) :: Owned(drawn, i, DigestOf(x))
    ensures LocalKnown(d, past, registered, drawn, i, Prepare(d, s, r).value)
  {
    hide Begin, CompleteLogin, DecideConsent, ExchangeCode, Refresh, Plans.Revoke, BoundCode, Owned;
    hide AuthFact, RotationFact, CauseKnown, Verifies, ClientsKnown, Chained, GrantsKnown, CodesKnown, CodesBooked;
    hide NewIdentifier, Elements, LoginBound, ConsentBound, AuthsKnown, ConsentsKnown;
    hide AuthFits, SessionFits, RedirectFits, Redeemable, ResponseFits, Vouched;
    match r
    case Authorize(input, token, at) => BeginKnown(d, s, registered, input, token, at);
    case LogIn(presented, _, _) => AuthReadKnown(s.authorizations, past.auths, DigestCredential(presented));
    case Resolve(presented, decision, selected, a) => ResolveKnown(d, s, past, presented, decision, selected, a);
    case Redeem(input, a) => RedeemKnown(d, s, past, requests, input, a);
    case Renew(presented, clientID, a) => RenewKnown(d, s.refresh, past, presented, clientID, a);
    case Withdraw(presented, clientID, at) => WithdrawKnown(s.refresh, past, presented, clientID, at);
  }

  lemma PrepareKnown(d: Deployment, e: Server, r: Request, read: Source)
    requires ServerInv(d, e) && Possible(e, Begun(r, read)) && Prepare(d, Seen(e, read), r).Some?
    ensures LocalKnown(d, e.w.past, e.ledger.registered, Draw(e.drawn, Secrets(r), e.calls), e.calls,
                       Prepare(d, Seen(e, read), r).value)
  {
    hide Prepare, LocalKnown, Chained, RowsKnown, CodesBooked, ClientsKnown, Alike;
    hide Draw, Owned, Secrets;
    RowsReadable(d, e, read);
    DrawOwns(e.drawn, Secrets(r), e.calls);
    hide ServerInv;
    RequestKnown(d, Seen(e, read), e.w.past, e.ledger.registered, e.ledger.requests, r,
                 Draw(e.drawn, Secrets(r), e.calls), e.calls);
  }

  lemma InvHasClients(d: Deployment, e: Server)
    requires ServerInv(d, e)
    ensures ClientsKnown(e.w.store.clients, e.ledger.registered)
  {
    hide Inv, ClientsKnown, SecretsStored, Numbered, PendingKnown, Booked;
  }

  // -------------------------------------------------------------------------
  // Every step is a legal sequence of store calls
  // -------------------------------------------------------------------------

  /** A secret that a pending call drew is not in the store's past. */
  lemma PendingIsFresh(past: Past, drawn: map<string, nat>, pending: set<nat>, i: nat, digest: CredentialDigest)
    requires SecretsStored(past, drawn, pending) && i in pending && Owned(drawn, i, digest)
    ensures digest !in past.auths && digest !in past.consents && digest !in past.codes && digest !in past.grants
    ensures digest.raw !in past.families
  {
  }

  lemma PlanIsKnown(d: Deployment, e: Server, step: Step)
    requires ServerInv(d, e) && Committing(e, step)
    ensures PlanKnown(d, e.w.past, e.ledger.registered, e.drawn, step.i, e.pending[step.i].plan)
    ensures PlanFits(d, e.w.past, e.ledger.registered, e.pending[step.i].request, e.pending[step.i].plan)
    ensures SecretsStored(e.w.past, e.drawn, e.pending.Keys)
  {
    hide Inv, ClientsKnown, SecretsStored, Numbered, PlanKnown, PlanFits, Booked;
    assert LocalKnown(d, e.w.past, e.ledger.registered, e.drawn, step.i, e.pending[step.i]);
  }

  /** The commit of a plan meets what the store assumes of its callers. */
  lemma CommitEnabled(d: Deployment, w: World, registered: map<ClientID, Client>, drawn: map<string, nat>,
                      pending: set<nat>, i: nat, plan: Plan, pruneAt: Time, now: Time)
    requires SecretsStored(w.past, drawn, pending) && i in pending
    requires PlanKnown(d, w.past, registered, drawn, i, plan)
    requires w.now <= pruneAt <= now
    ensures Enabled(w, CallOf(plan, pruneAt, now), d.config.statePolicy)
  {
    hide Apply, SecretsStored, Owned, AuthFact, RotationFact, Verifies, IsSubsetOf, Elements;
    hide LoginBound, ConsentBound, ExchangeBound;
    match plan
    case PlanBegin(auth, _) => PendingIsFresh(w.past, drawn, pending, i, DigestCredential(auth.token));
    case PlanLogin(login, _) => PendingIsFresh(w.past, drawn, pending, i, DigestCredential(login.consent.token));
    case PlanDecide(decide, _, _) =>
      if decide.decision == Approve {
        PendingIsFresh(w.past, drawn, pending, i, decide.code.digest);
      }
    case PlanExchange(_, grant, _) =>
      PendingIsFresh(w.past, drawn, pending, i, grant.digest);
      PendingIsFresh(w.past, drawn, pending, i, DigestOf(grant.familyID));
    case PlanRotate(rotation, _) => PendingIsFresh(w.past, drawn, pending, i, rotation.successor.digest);
    case PlanRevoke(_, _, _) =>
  }

  lemma TouchStep(w: World, id: ClientID, at: Time, policy: StatePolicy)
    ensures Enabled(w, Touch(id, at), policy)
    ensures Next(w, Touch(id, at), policy) == w.(store := TouchClient(w.store, id, at).0)
    ensures TouchClient(w.store, id, at).0.clients.Keys == w.store.clients.Keys
    ensures TouchClient(w.store, id, at).0.refresh == w.store.refresh
  {
  }

  lemma OneCall(w: World, e: Event, policy: StatePolicy)
    ensures Legal(w, [e], policy) <==> Enabled(w, e, policy)
    ensures Run(w, [e], policy) == Next(w, e, policy)
  {
    hide Enabled, Next;
  }

  lemma CommitIsLegal(d: Deployment, e: Server, step: Step)
    requires step.Finished? && Possible(e, step)
    requires ServerInv(d, e)
    ensures Legal(e.w, Calls(d, e, step), d.config.statePolicy)
  {
    hide ServerInv, Enabled, Next, PlanKnown, SecretsStored, CallOf, Legal;
    var policy, plan := d.config.statePolicy, e.pending[step.i].plan;
    PlanIsKnown(d, e, step);
    NoCalls(e.w, policy);
    CommitEnabled(d, e.w, e.ledger.registered, e.drawn, e.pending.Keys, step.i, plan, step.pruneAt, step.now);
    OneCall(e.w, CallOf(plan, step.pruneAt, step.now), policy);
  }

  lemma NoCalls(w: World, policy: StatePolicy)
    ensures Legal(w, [], policy) && Run(w, [], policy) == w
  {
  }

  lemma CallsAreLegal(d: Deployment, e: Server, step: Step)
    requires ServerInv(d, e) && Possible(e, step)
    ensures Legal(e.w, Calls(d, e, step), d.config.statePolicy)
  {
    if step.Finished? {
      hide ServerInv, Calls, Legal, Possible;
      CommitIsLegal(d, e, step);
    } else {
      hide ServerInv, Enabled, Next, Engine.MetadataAccepted, Engine.NewClient, Legal;
      var policy := d.config.statePolicy;
      NoCalls(e.w, policy);
      if step.Enroll? && Engine.MetadataAccepted(d, step.input) {
        var e0 := Calls(d, e, step)[0];
        RegisterEnabled(e.w, e0.client, step.now, policy);
        OneCall(e.w, e0, policy);
      } else if step.Touched? && !step.fault {
        TouchStep(e.w, e.pending[step.i].id, step.touchedAt, policy);
        OneCall(e.w, Touch(e.pending[step.i].id, step.touchedAt), policy);
      } else if step.Swept? {
        SweepEnabled(e.w, step.now, policy);
        OneCall(e.w, Sweep(step.now), policy);
      }
    }
  }

  lemma RegisterEnabled(w: World, client: Client, now: Time, policy: StatePolicy)
    requires w.now <= now
    ensures Enabled(w, Register(client, now), policy)
  {
  }

  lemma SweepEnabled(w: World, now: Time, policy: StatePolicy)
    requires w.now <= now
    ensures Enabled(w, Sweep(now), policy)
  {
  }

  // -------------------------------------------------------------------------
  // What a step leaves in the store and its past
  // -------------------------------------------------------------------------

  /** The past is added to and never rewritten. */
  ghost predicate Extends(past: Past, past': Past) {
    && (forall k | k in past.auths :: k in past'.auths && past'.auths[k] == past.auths[k])
    && (forall k | k in past.consents :: k in past'.consents && past'.consents[k] == past.consents[k])
    && (forall k | k in past.codes :: k in past'.codes && past'.codes[k] == past.codes[k])
    && (forall k | k in past.grants :: k in past'.grants && past'.grants[k] == past.grants[k])
    && (forall f | f in past.families :: f in past'.families && past'.families[f].code == past.families[f].code
          && |past.families[f].chain| <= |past'.families[f].chain|)
  }

  lemma StepExtends(w: World, e: Event, policy: StatePolicy)
    requires Enabled(w, e, policy)
    ensures Extends(w.past, Next(w, e, policy).past)
  {
    hide Apply;
  }

  lemma NextWorld(w: World, e: Event, policy: StatePolicy)
    ensures Next(w, e, policy).past == if Apply(w.store, e, policy).1.Ok? then Record(w.past, e) else w.past
    ensures Next(w, e, policy).store == Apply(w.store, e, policy).0
  {
    hide Apply, Record, TimeAfter;
  }

  /** The world after a commit, whatever it answered. */
  lemma CommittedWorld(d: Deployment, e: Server, step: Step)
    requires Committing(e, step)
    ensures var after, call := After(d, e, step).w, CallOf(e.pending[step.i].plan, step.pruneAt, step.now);
            && after.past == (if Answer(d, e, step).Ok? then Record(e.w.past, call) else e.w.past)
            && after.store == if step.fault then e.w.store else Apply(e.w.store, call, d.config.statePolicy).0
    ensures CallSucceeds(d, e, step) <==> Answer(d, e, step).Ok?
  {
    hide Apply, Record, TimeAfter, Book, Keep, Draw, CallOf, Enabled, Next, Run;
    var policy, call := d.config.statePolicy, CallOf(e.pending[step.i].plan, step.pruneAt, step.now);
    NoCalls(e.w, policy);
    OneCall(e.w, call, policy);
    NextWorld(e.w, call, policy);
  }

  // -------------------------------------------------------------------------
  // What a successful commit books
  // -------------------------------------------------------------------------

  /** A login that goes through found its transaction unexpired. */
  lemma LoginInTime(s: State, past: Past, login: LoginCommit, pruneAt: Time, now: Time, policy: StatePolicy)
    requires Apply(s, Login(login, pruneAt, now), policy).1.Ok? && AuthsKnown(s.authorizations, past.auths)
    ensures login.transaction in past.auths && now < past.auths[login.transaction].expiresAt
    ensures now < login.consent.authorizationEnds
  {
    hide Prune, CommitLogin, LoginBound;
    var p := Prune(s, pruneAt);
    PruneKeepsRowsOf(s, pruneAt);
    LoginAccepted(p, login, policy, now);
    var row := s.authorizations[login.transaction];
    assert AuthCore(row).expiresAt == AuthCore(past.auths[login.transaction]).expiresAt;
  }

  lemma DecisionInTime(s: State, past: Past, decide: ConsentCommit, pruneAt: Time, now: Time, policy: StatePolicy)
    requires Apply(s, Decide(decide, pruneAt, now), policy).1.Ok? && ConsentsKnown(s.consents, past.consents)
    ensures decide.consent in past.consents && now < past.consents[decide.consent].session.expiresAt
  {
    hide Prune, CommitConsent, ConsentBound;
    var p := Prune(s, pruneAt);
    PruneKeepsRowsOf(s, pruneAt);
    ConsentAccepted(p, decide, policy, now);
    var row := s.consents[decide.consent];
    assert ConsentCore(row).expiresAt == ConsentCore(past.consents[decide.consent].session).expiresAt;
  }

  lemma ExchangeInTime(s: State, commit: ExchangeCommit, pruneAt: Time, now: Time, policy: StatePolicy)
    requires Apply(s, Exchange(commit, pruneAt, now), policy).1.Ok?
    ensures commit.refresh.Some? && commit.refresh.value.generation == 0 && now < commit.refresh.value.expiresAt
  {
    hide Prune, CommitCodeExchange, ExchangeBound;
    ExchangeAccepted(Prune(s, pruneAt), commit, policy, now);
  }

  lemma RotationInTime(s: State, rotation: Rotation, pruneAt: Time, now: Time, policy: StatePolicy)
    requires Apply(s, Rotate(rotation, pruneAt, now), policy).1.Ok?
    ensures now < rotation.successor.expiresAt
  {
    hide Prune, CommitRefreshRotation;
    RotationAccepted(Prune(s, pruneAt), rotation, policy, now);
  }

  lemma InvKnows(w: World, policy: StatePolicy)
    requires Inv(w, policy)
    ensures AuthsKnown(w.store.authorizations, w.past.auths) && ConsentsKnown(w.store.consents, w.past.consents)
    ensures CodesKnown(w.store.codes, w.past.codes)
  {
    hide AuthsKnown, ConsentsKnown, CodesKnown, TransactionsSpent, ConsentsSpent, CodesSpent, FamiliesInv, RowsInv;
  }

  lemma OwnIsUnused(past: Past, drawn: map<string, nat>, pending: set<nat>, i: nat, digest: CredentialDigest)
    requires SecretsStored(past, drawn, pending) && i in pending && Owned(drawn, i, digest)
    ensures Unused(past, digest)
  {
    hide SecretsStored, Owned;
    PendingIsFresh(past, drawn, pending, i, digest);
  }

  /** A generation below the limit is the next one; it has not wrapped. */
  lemma NextGeneration(w: World, k: CredentialDigest, policy: StatePolicy)
    requires Inv(w, policy) && k in w.past.grants
    ensures Increment(w.past.grants[k].generation) == w.past.grants[k].generation + 1
    ensures w.past.grants[k].familyID in w.past.families && w.past.grants[k].digest == k
  {
    hide CredentialInv, RowsInv, ActiveGrants, Related;
  }

  /** The books after a commit that went through, on its own secrets: the record that went in. */
  lemma RecordBooked(d: Deployment, w: World, ledger: Ledger, drawn: map<string, nat>, pending: set<nat>, i: nat,
                     r: Request, plan: Plan, pruneAt: Time, now: Time)
    requires Inv(w, d.config.statePolicy) && Booked(d, w.past, ledger)
    requires SecretsStored(w.past, drawn, pending) && i in pending
    requires PlanKnown(d, w.past, ledger.registered, drawn, i, plan)
    requires PlanFits(d, w.past, ledger.registered, r, plan)
    requires Apply(w.store, CallOf(plan, pruneAt, now), d.config.statePolicy).1.Ok?
    requires PlanTime(plan) <= pruneAt <= now
    ensures Booked(d, Record(w.past, CallOf(plan, pruneAt, now)),
                   ledger.(requests := Book(ledger, r, plan).requests))
  {
    hide Inv, Apply, SecretsStored, Owned, AuthFact, RotationFact, Verifies, Elements, Booked;
    hide AuthsKnown, ConsentsKnown, CodesKnown, LoginBound, ConsentBound, ExchangeBound;
    hide AuthFits, SessionFits, CodeFits, RedirectFits, Redeemable, ResponseFits, Vouched;
    InvKnows(w, d.config.statePolicy);
    var policy := d.config.statePolicy;
    match plan
    case PlanBegin(auth, at) =>
      OwnIsUnused(w.past, drawn, pending, i, DigestCredential(auth.token));
      BookAuth(d, w.past, ledger, auth, r);
    case PlanLogin(login, at) =>
      OwnIsUnused(w.past, drawn, pending, i, DigestCredential(login.consent.token));
      LoginInTime(w.store, w.past, login, pruneAt, now, policy);
      BookConsent(d, w.past, ledger, login, r);
    case PlanDecide(decide, _, at) =>
      if decide.decision == Approve {
        OwnIsUnused(w.past, drawn, pending, i, decide.code.digest);
        DecisionInTime(w.store, w.past, decide, pruneAt, now, policy);
        BookCode(d, w.past, ledger, decide, r);
      }
    case PlanExchange(_, _, _) => GrantRecordBooked(d, w, ledger, drawn, pending, i, r, plan, pruneAt, now);
    case PlanRotate(_, _) => GrantRecordBooked(d, w, ledger, drawn, pending, i, r, plan, pruneAt, now);
    case PlanRevoke(_, _, _) =>
  }

  lemma GrantRecordBooked(d: Deployment, w: World, ledger: Ledger, drawn: map<string, nat>, pending: set<nat>, i: nat,
                          r: Request, plan: Plan, pruneAt: Time, now: Time)
    requires plan.PlanExchange? || plan.PlanRotate?
    requires Inv(w, d.config.statePolicy) && Booked(d, w.past, ledger)
    requires SecretsStored(w.past, drawn, pending) && i in pending
    requires PlanKnown(d, w.past, ledger.registered, drawn, i, plan)
    requires PlanFits(d, w.past, ledger.registered, r, plan)
    ensures Booked(d, Record(w.past, CallOf(plan, pruneAt, now)),
                   ledger.(requests := Book(ledger, r, plan).requests))
  {
    hide Inv, SecretsStored, Owned, RotationFact, Elements, Booked, ExchangeBound, Redeemable, ResponseFits, Vouched;
    match plan
    case PlanExchange(spent, grant, _) =>
      OwnIsUnused(w.past, drawn, pending, i, grant.digest);
      PendingIsFresh(w.past, drawn, pending, i, DigestOf(grant.familyID));
      BookGrant(d, w.past, Record(w.past, CallOf(plan, pruneAt, now)), ledger, grant, r);
    case PlanRotate(rotation, _) =>
      OwnIsUnused(w.past, drawn, pending, i, rotation.successor.digest);
      NextGeneration(w, rotation.current, d.config.statePolicy);
      BookGrant(d, w.past, Record(w.past, CallOf(plan, pruneAt, now)), ledger, rotation.successor, r);
  }

  /** What its caller is handed is the grant that went in. */
  lemma HandedIsStored(d: Deployment, w: World, registered: map<ClientID, Client>, r: Request, plan: Plan,
                       pruneAt: Time, now: Time)
    requires PlanFits(d, w.past, registered, r, plan)
    requires Apply(w.store, CallOf(plan, pruneAt, now), d.config.statePolicy).1.Ok?
    requires PlanTime(plan) <= pruneAt <= now && ReplyOf(plan, Ok).Tokens?
    requires plan.PlanRotate? ==> plan.rotation.successor.familyID in w.past.families
    ensures var t, past := ReplyOf(plan, Ok).response, Record(w.past, CallOf(plan, pruneAt, now));
            var k := DigestCredential(t.refreshToken);
            && Inserted(plan) == Some(k) && k in past.grants
            && ResponseFits(d, past.grants[k], Reading(r), t) && Reading(r) < past.grants[k].expiresAt
  {
    hide Apply, Redeemable, SuccessorFits;
    if plan.PlanExchange? {
      ExchangeInTime(w.store, ExchangeCommit(plan.spent, Some(plan.grant)), pruneAt, now, d.config.statePolicy);
    } else if plan.PlanRotate? {
      RotationInTime(w.store, plan.rotation, pruneAt, now, d.config.statePolicy);
    }
  }

  /** The books after a commit that went through, on its own secrets. */
  lemma CommitBooked(d: Deployment, w: World, ledger: Ledger, drawn: map<string, nat>, pending: set<nat>, i: nat,
                     r: Request, plan: Plan, pruneAt: Time, now: Time)
    requires Inv(w, d.config.statePolicy) && Booked(d, w.past, ledger)
    requires SecretsStored(w.past, drawn, pending) && i in pending
    requires PlanKnown(d, w.past, ledger.registered, drawn, i, plan)
    requires PlanFits(d, w.past, ledger.registered, r, plan)
    requires Apply(w.store, CallOf(plan, pruneAt, now), d.config.statePolicy).1.Ok?
    requires PlanTime(plan) <= pruneAt <= now
    ensures Booked(d, Record(w.past, CallOf(plan, pruneAt, now)), Book(ledger, r, plan))
  {
    hide Inv, Apply, SecretsStored, PlanFits, Booked, Record, CallOf, ReplyOf, ResponseFits, PlanTime;
    RecordBooked(d, w, ledger, drawn, pending, i, r, plan, pruneAt, now);
    var reply := ReplyOf(plan, Ok);
    if reply.Tokens? {
      HandedIsStored(d, w, ledger.registered, r, plan, pruneAt, now);
      BookIssue(d, Record(w.past, CallOf(plan, pruneAt, now)), ledger.(requests := Book(ledger, r, plan).requests),
                Issue(reply.response, r));
    } else {
      assert Book(ledger, r, plan) == ledger.(requests := Book(ledger, r, plan).requests);
    }
  }

  // -------------------------------------------------------------------------
  // Every step keeps the invariant
  // -------------------------------------------------------------------------

  lemma SettledStays(past: Past, drawn: map<string, nat>, pending: set<nat>, fewer: set<nat>)
    requires SecretsStored(past, drawn, pending) && fewer <= pending
    ensures SecretsStored(past, drawn, fewer)
  {
  }

  /** A commit settles the secrets of its own call. */
  lemma CommitSettles(d: Deployment, past: Past, registered: map<ClientID, Client>, drawn: map<string, nat>,
                      pending: set<nat>, i: nat, plan: Plan, pruneAt: Time, now: Time)
    requires SecretsStored(past, drawn, pending) && PlanKnown(d, past, registered, drawn, i, plan)
    ensures SecretsStored(Record(past, CallOf(plan, pruneAt, now)), drawn, pending - {i})
  {
    hide AuthFact, RotationFact, CauseKnown, IsSubsetOf, Elements, Owned, Settled;
    hide LoginBound, ConsentBound, ExchangeBound;
    SettledStays(past, drawn, pending, pending - {i});
    OwnedSettles(drawn, pending, i);
  }

  lemma OwnedSettles(drawn: map<string, nat>, pending: set<nat>, i: nat)
    ensures forall k :: Owned(drawn, i, k) ==> Settled(drawn, pending - {i}, k)
  {
  }

  ghost predicate Includes<K(!new), V(!new)>(a: map<K, V>, b: map<K, V>) {
    forall k | k in a :: k in b && b[k] == a[k]
  }

  lemma PlanStays(d: Deployment, past: Past, past': Past, registered: map<ClientID, Client>,
                  registered': map<ClientID, Client>, drawn: map<string, nat>, drawn': map<string, nat>,
                  i: nat, plan: Plan)
    requires PlanKnown(d, past, registered, drawn, i, plan)
    requires Extends(past, past') && Includes(registered, registered') && Includes(drawn, drawn')
    ensures PlanKnown(d, past', registered', drawn', i, plan)
  {
    hide RotationFact, IsSubsetOf, Elements, LoginBound, ConsentBound, ExchangeBound;
  }

  /** A plan that fits its request goes on fitting it. */
  lemma FitStays(d: Deployment, past: Past, past': Past, registered: map<ClientID, Client>,
                 registered': map<ClientID, Client>, r: Request, plan: Plan)
    requires PlanFits(d, past, registered, r, plan)
    requires Extends(past, past') && Includes(registered, registered')
    ensures PlanFits(d, past', registered', r, plan)
  {
    hide AuthFits, SessionFits, DecisionFits, RedirectFits, Redeemable, FirstFits, SuccessorFits, ResponseFits;
    hide NewIdentifier;
  }

  lemma PendingStays(d: Deployment, past: Past, past': Past, registered: map<ClientID, Client>,
                     registered': map<ClientID, Client>, drawn: map<string, nat>, drawn': map<string, nat>,
                     pending: map<nat, Local>, pending': map<nat, Local>)
    requires PendingKnown(d, past, registered, drawn, pending) && Includes(pending', pending)
    requires Extends(past, past') && Includes(registered, registered') && Includes(drawn, drawn')
    ensures PendingKnown(d, past', registered', drawn', pending')
  {
    hide LocalKnown, Extends;
    forall i | i in pending'
      ensures LocalKnown(d, past', registered', drawn', i, pending'[i])
    {
      LocalStays(d, past, past', registered, registered', drawn, drawn', i, pending[i]);
    }
  }

  lemma LocalStays(d: Deployment, past: Past, past': Past, registered: map<ClientID, Client>,
                   registered': map<ClientID, Client>, drawn: map<string, nat>, drawn': map<string, nat>,
                   i: nat, l: Local)
    requires LocalKnown(d, past, registered, drawn, i, l)
    requires Extends(past, past') && Includes(registered, registered') && Includes(drawn, drawn')
    ensures LocalKnown(d, past', registered', drawn', i, l)
  {
    hide PlanKnown, PlanFits;
    if l.Planned? || (l.Touching? && l.plan.PlanBegin?) {
      PlanStays(d, past, past', registered, registered', drawn, drawn', i, l.plan);
      FitStays(d, past, past', registered, registered', l.request, l.plan);
    }
  }

  lemma ExtendsItself(past: Past)
    ensures Extends(past, past)
  {
  }

  lemma {:induction false} RunExtends(w: World, es: seq<Event>, policy: StatePolicy)
    requires Legal(w, es, policy)
    ensures Extends(w.past, Run(w, es, policy).past)
    decreases |es|
  {
    hide Enabled, Next;
    if es != [] {
      StepExtends(w, es[0], policy);
      RunExtends(Next(w, es[0], policy), es[1..], policy);
    }
  }

  lemma ClientsStay(s: State, e: Event, policy: StatePolicy)
    requires !e.Register? && !e.Touch?
    ensures Apply(s, e, policy).0.clients == s.clients
  {
    hide PruneAuthorizations, PruneConsents, PruneCodes, PruneRefresh, RevokeRows, ActiveGrants;
    hide ValidateLoginCommit, ValidateConsentCommit, ValidateCodeExchangeCommit, ValidateRefreshRotation;
  }

  lemma TouchKeepsKnown(s: State, id: ClientID, at: Time, registered: map<ClientID, Client>)
    requires ClientsKnown(s.clients, registered)
    ensures ClientsKnown(TouchClient(s, id, at).0.clients, registered)
  {
  }

  lemma CommitKeepsClients(d: Deployment, e: Server, step: Step)
    requires Committing(e, step)
    requires ServerInv(d, e)
    ensures ClientsKnown(After(d, e, step).w.store.clients, e.ledger.registered)
  {
    hide ServerInv, Apply, CallOf, After, ClientsKnown;
    InvHasClients(d, e);
    CommittedWorld(d, e, step);
    NotAboutClients(e.pending[step.i].plan, step.pruneAt, step.now);
    ClientsStay(e.w.store, CallOf(e.pending[step.i].plan, step.pruneAt, step.now), d.config.statePolicy);
  }

  lemma NotAboutClients(plan: Plan, pruneAt: Time, now: Time)
    requires !plan.Refuse?
    ensures !CallOf(plan, pruneAt, now).Register? && !CallOf(plan, pruneAt, now).Touch?
  {
  }

  /** The parts of the invariant, one by one. */
  lemma ServerParts(d: Deployment, e: Server)
    requires ServerInv(d, e)
    ensures Inv(e.w, d.config.statePolicy) && ClientsKnown(e.w.store.clients, e.ledger.registered)
    ensures SecretsStored(e.w.past, e.drawn, e.pending.Keys) && Numbered(e)
    ensures PendingKnown(d, e.w.past, e.ledger.registered, e.drawn, e.pending) && Booked(d, e.w.past, e.ledger)
  {
    hide Inv, ClientsKnown, SecretsStored, Numbered, PendingKnown, Booked;
  }

  lemma StoreStays(d: Deployment, e: Server, step: Step)
    requires ServerInv(d, e) && Possible(e, step) && ValidPolicy(d.config.statePolicy)
    ensures Inv(Run(e.w, Calls(d, e, step), d.config.statePolicy), d.config.statePolicy)
    ensures Extends(e.w.past, Run(e.w, Calls(d, e, step), d.config.statePolicy).past)
  {
    hide ServerInv, Possible, Inv, Calls, Legal, Run, Extends;
    ServerParts(d, e);
    CallsAreLegal(d, e, step);
    RunKeeps(e.w, Calls(d, e, step), d.config.statePolicy);
    RunExtends(e.w, Calls(d, e, step), d.config.statePolicy);
  }

  /** Booking changes neither the registrations nor the numbering. */
  lemma BookKeepsRegistered(ledger: Ledger, r: Request, plan: Plan)
    ensures Book(ledger, r, plan).registered == ledger.registered
  {
  }

  lemma FinishKeeps(d: Deployment, e: Server, step: Step)
    requires ServerInv(d, e) && Possible(e, step) && ValidPolicy(d.config.statePolicy) && step.Finished?
    ensures ServerInv(d, After(d, e, step))
  {
    hide Inv, ClientsKnown, SecretsStored, PendingKnown, Booked, Calls, Run, Extends, Book, Record, CallOf, PlanKnown;
    hide Answer, Includes, PlanTime;
    ServerParts(d, e);
    StoreStays(d, e, step);
    CommitKeepsClients(d, e, step);
    PlanIsKnown(d, e, step);
    CommittedWorld(d, e, step);
    var after, plan := After(d, e, step), e.pending[step.i].plan;
    BookKeepsRegistered(e.ledger, e.pending[step.i].request, plan);
    FewerPending(e.pending, step.i);
    IncludesItself(e.ledger.registered);
    IncludesItself(e.drawn);
    PendingStays(d, e.w.past, after.w.past, e.ledger.registered, e.ledger.registered, e.drawn, e.drawn,
                 e.pending, after.pending);
    assert after.pending.Keys == e.pending.Keys - {step.i};
    if Answer(d, e, step).Ok? {
      CommitSettles(d, e.w.past, e.ledger.registered, e.drawn, e.pending.Keys, step.i, plan, step.pruneAt, step.now);
      FinishBooked(d, e, step);
    } else {
      SettledStays(e.w.past, e.drawn, e.pending.Keys, after.pending.Keys);
    }
  }

  lemma FewerPending(pending: map<nat, Local>, i: nat)
    ensures Includes(pending - {i}, pending)
  {
  }

  lemma IncludesItself<K(!new), V(!new)>(m: map<K, V>)
    ensures Includes(m, m)
  {
  }

  lemma FinishBooked(d: Deployment, e: Server, step: Step)
    requires Committing(e, step) && Answer(d, e, step).Ok?
    requires ServerInv(d, e) && Possible(e, step)
    ensures Booked(d, Record(e.w.past, CallOf(e.pending[step.i].plan, step.pruneAt, step.now)),
                   Book(e.ledger, e.pending[step.i].request, e.pending[step.i].plan))
  {
    hide ServerInv, Inv, Apply, SecretsStored, PendingKnown, Booked, Book, Record, CallOf, PlanKnown, PlanTime;
    ServerParts(d, e);
    PlanIsKnown(d, e, step);
    var l := e.pending[step.i];
    CommitBooked(d, e.w, e.ledger, e.drawn, e.pending.Keys, step.i, l.request, l.plan, step.pruneAt, step.now);
  }

  lemma DrawIncludes(drawn: map<string, nat>, secrets: set<string>, i: nat)
    requires secrets !! drawn.Keys
    ensures Includes(drawn, Draw(drawn, secrets, i))
  {
  }

  /** New secrets, drawn by the newest call, unsettle no old one. */
  lemma DrawSettles(past: Past, drawn: map<string, nat>, pending: set<nat>, secrets: set<string>, calls: nat)
    requires SecretsStored(past, drawn, pending) && secrets !! drawn.Keys
    requires forall s | s in drawn :: drawn[s] < calls
    ensures SecretsStored(past, Draw(drawn, secrets, calls), pending + {calls})
  {
    var drawn' := Draw(drawn, secrets, calls);
    forall k | Settled(drawn, pending, k)
      ensures Settled(drawn', pending + {calls}, k)
    {
      assert drawn'[k.raw] == drawn[k.raw];
    }
    hide Settled, Draw;
  }

  lemma DrawKeepsNumbers(e: Server, secrets: set<string>)
    requires Numbered(e)
    ensures forall s | s in Draw(e.drawn, secrets, e.calls) :: Draw(e.drawn, secrets, e.calls)[s] < e.calls + 1
    ensures forall id | id in e.ledger.registered :: id in Draw(e.drawn, secrets, e.calls)
  {
  }

  lemma KeepPending(d: Deployment, past: Past, registered: map<ClientID, Client>, drawn: map<string, nat>,
                    pending: map<nat, Local>, i: nat, l: Option<Local>)
    requires PendingKnown(d, past, registered, drawn, pending)
    requires l.Some? ==> LocalKnown(d, past, registered, drawn, i, l.value)
    ensures PendingKnown(d, past, registered, drawn, Keep(pending, i, l))
    ensures Keep(pending, i, l).Keys <= pending.Keys + {i}
  {
    hide LocalKnown;
  }

  lemma BegunKeeps(d: Deployment, e: Server, r: Request, read: Source)
    requires ServerInv(d, e) && Possible(e, Begun(r, read))
    ensures ServerInv(d, After(d, e, Begun(r, read)))
  {
    hide Inv, ClientsKnown, SecretsStored, PendingKnown, Booked, Prepare, Secrets, Draw, LocalKnown, Includes, Extends;
    hide Keep;
    ServerParts(d, e);
    var drawn, l := Draw(e.drawn, Secrets(r), e.calls), Prepare(d, Seen(e, read), r);
    DrawIncludes(e.drawn, Secrets(r), e.calls);
    DrawSettles(e.w.past, e.drawn, e.pending.Keys, Secrets(r), e.calls);
    DrawKeepsNumbers(e, Secrets(r));
    ExtendsItself(e.w.past);
    IncludesItself(e.ledger.registered);
    IncludesItself(e.pending);
    PendingStays(d, e.w.past, e.w.past, e.ledger.registered, e.ledger.registered, e.drawn, drawn, e.pending, e.pending);
    if l.Some? {
      PrepareKnown(d, e, r, read);
    }
    KeepPending(d, e.w.past, e.ledger.registered, drawn, e.pending, e.calls, l);
    SettledStays(e.w.past, drawn, e.pending.Keys + {e.calls}, Keep(e.pending, e.calls, l).Keys);
  }

  lemma ProceedKnown(d: Deployment, e: Server, i: nat, s: State)
    requires i in e.pending && e.pending[i].LoginRead?
    requires LocalKnown(d, e.w.past, e.ledger.registered, e.drawn, i, e.pending[i])
    requires ClientsKnown(s.clients, e.ledger.registered)
    ensures Proceed(d, s, e.pending[i]).Some? ==>
              LocalKnown(d, e.w.past, e.ledger.registered, e.drawn, i, Proceed(d, s, e.pending[i]).value)
  {
    hide CompleteLogin, Owned, LoginBound, SessionFits;
    var l := e.pending[i];
    LoginKnown(d, l.presented, l.principal, l.auth, Lookup(s.clients, l.auth.clientID), l.login);
    if Proceed(d, s, l).Some? {
      var auth, client := e.w.past.auths[DigestCredential(l.presented)], s.clients[l.auth.clientID];
      var consent := Proceed(d, s, l).value.plan.login.consent;
      LoginBoundAgain(l.auth, auth, consent);
      assert AuthCore(l.auth).clientID == AuthCore(auth).clientID;
      SessionAgain(d, l.auth, auth, client, e.ledger.registered[auth.clientID], l.principal, l.login, consent);
      SessionNamesToken(d, auth, e.ledger.registered[auth.clientID], l.principal, l.login, consent);
    }
  }

  lemma SessionNamesToken(d: Deployment, auth: Authorization, client: Client, principal: Principal, a: LoginAnswers,
                          c: Consent)
    requires SessionFits(d, auth, client, principal, a, c)
    ensures a.token == Some(c.token) && c.consumedAt == ZERO_TIME
  {
  }

  lemma ContinuedKeeps(d: Deployment, e: Server, i: nat, read: Source)
    requires ServerInv(d, e) && Possible(e, Continued(i, read))
    ensures ServerInv(d, After(d, e, Continued(i, read)))
  {
    hide Inv, ClientsKnown, SecretsStored, Booked, Proceed, LocalKnown, Keep, RowsKnown, Alike;
    ServerParts(d, e);
    RowsReadable(d, e, read);
    var l := Proceed(d, Seen(e, read), e.pending[i]);
    ProceedKnown(d, e, i, Seen(e, read));
    KeepPending(d, e.w.past, e.ledger.registered, e.drawn, e.pending, i, l);
    SettledStays(e.w.past, e.drawn, e.pending.Keys, Keep(e.pending, i, l).Keys);
  }

  lemma TouchedKeeps(d: Deployment, e: Server, step: Step)
    requires step.Touched? && Possible(e, step) && ValidPolicy(d.config.statePolicy)
    requires ServerInv(d, e)
    ensures ServerInv(d, After(d, e, step))
  {
    hide Inv, ClientsKnown, SecretsStored, Booked, Next, Run, PlanKnown, PlanFits, TouchClient, Keep, Extends;
    ServerParts(d, e);
    StoreStays(d, e, step);
    var id, policy := e.pending[step.i].id, d.config.statePolicy;
    var l := if CallSucceeds(d, e, step) then Kept(e.pending[step.i].request, e.pending[step.i].plan) else None;
    NoCalls(e.w, policy);
    OneCall(e.w, Touch(id, step.touchedAt), policy);
    TouchStep(e.w, id, step.touchedAt, policy);
    TouchKeepsKnown(e.w.store, id, step.touchedAt, e.ledger.registered);
    KeepPending(d, e.w.past, e.ledger.registered, e.drawn, e.pending, step.i, l);
    SettledStays(e.w.past, e.drawn, e.pending.Keys, Keep(e.pending, step.i, l).Keys);
  }

  lemma SweptKeeps(d: Deployment, e: Server, now: Time)
    requires ServerInv(d, e) && Possible(e, Swept(now)) && ValidPolicy(d.config.statePolicy)
    ensures ServerInv(d, After(d, e, Swept(now)))
  {
    hide Inv, ClientsKnown, SecretsStored, PendingKnown, Booked, Next, Run, Extends, Prune;
    ServerParts(d, e);
    StoreStays(d, e, Swept(now));
    OneCall(e.w, Sweep(now), d.config.statePolicy);
    NextWorld(e.w, Sweep(now), d.config.statePolicy);
    PruneKeepsClients(e.w.store, now);
  }

  // -------------------------------------------------------------------------
  // Registration
  // -------------------------------------------------------------------------

  lemma RegisterKnown(s: State, client: Client, now: Time, policy: StatePolicy, registered: map<ClientID, Client>)
    requires ClientsKnown(s.clients, registered) && client.id !in registered
    ensures var (s', r) := Apply(s, Register(client, now), policy);
            ClientsKnown(s'.clients, if r.Ok? then registered[client.id := client] else registered)
  {
    hide Evictable;
  }

  lemma AuthsStay(d: Deployment, auths: Auths, registered: map<ClientID, Client>, registered': map<ClientID, Client>,
                  requests: Requested)
    requires AuthsBooked(d, auths, registered, requests) && Includes(registered, registered')
    ensures AuthsBooked(d, auths, registered', requests)
  {
    hide IsSubsetOf, Begins;
  }

  lemma ConsentsStayBooked(d: Deployment, auths: Auths, registered: map<ClientID, Client>,
                           registered': map<ClientID, Client>, consents: Sessions, requests: Requested)
    requires ConsentsBooked(d, auths, registered, consents, requests) && Includes(registered, registered')
    ensures ConsentsBooked(d, auths, registered', consents, requests)
  {
    hide SessionFits;
  }

  lemma EnrollKeeps(d: Deployment, e: Server, step: Step)
    requires ServerInv(d, e) && Possible(e, step) && ValidPolicy(d.config.statePolicy) && step.Enroll?
    ensures ServerInv(d, After(d, e, step))
  {
    hide Inv, ClientsKnown, SecretsStored, PendingKnown, Next, Run, Extends, Apply, Engine.MetadataAccepted, Draw;
    hide AuthsBooked, ConsentsBooked, CodesBooked, GrantsBooked, IssuesBooked, Includes, Settled;
    ServerParts(d, e);
    StoreStays(d, e, step);
    var after, drawn := After(d, e, step), Draw(e.drawn, {step.id}, e.calls);
    DrawIncludes(e.drawn, {step.id}, e.calls);
    DrawSettles(e.w.past, e.drawn, e.pending.Keys, {step.id}, e.calls);
    DrawKeepsNumbers(e, {step.id});
    SettledStays(e.w.past, drawn, e.pending.Keys + {e.calls}, e.pending.Keys);
    NoCalls(e.w, d.config.statePolicy);
    IncludesItself(e.ledger.registered);
    IncludesItself(e.pending);
    if Engine.MetadataAccepted(d, step.input) {
      RegisteredWorld(d, e, step);
    }
    AuthsStay(d, e.w.past.auths, e.ledger.registered, after.ledger.registered, e.ledger.requests);
    ConsentsStayBooked(d, e.w.past.auths, e.ledger.registered, after.ledger.registered, e.w.past.consents,
                       e.ledger.requests);
    ExtendsItself(e.w.past);
    PendingStays(d, e.w.past, e.w.past, e.ledger.registered, after.ledger.registered, e.drawn, drawn, e.pending,
                 e.pending);
    IdIsDrawn(e.drawn, step.id, e.calls);
  }

  lemma IdIsDrawn(drawn: map<string, nat>, id: string, i: nat)
    ensures id in Draw(drawn, {id}, i)
  {
  }

  lemma RegisteredWorld(d: Deployment, e: Server, step: Step)
    requires step.Enroll? && Engine.MetadataAccepted(d, step.input)
    requires ClientsKnown(e.w.store.clients, e.ledger.registered)
    requires step.id !in e.ledger.registered
    ensures After(d, e, step).w.past == e.w.past
    ensures ClientsKnown(After(d, e, step).w.store.clients, After(d, e, step).ledger.registered)
    ensures Includes(e.ledger.registered, After(d, e, step).ledger.registered)
  {
    hide ClientsKnown, Run, Next, Apply, Draw;
    var client := Engine.NewClient(d, step.input, step.id, step.createdAt);
    OneCall(e.w, Register(client, step.now), d.config.statePolicy);
    NextWorld(e.w, Register(client, step.now), d.config.statePolicy);
    RegisterKnown(e.w.store, client, step.now, d.config.statePolicy, e.ledger.registered);
  }

  // -------------------------------------------------------------------------
  // Runs
  // -------------------------------------------------------------------------

  lemma ServerStepKeeps(d: Deployment, e: Server, step: Step)
    requires ServerInv(d, e) && Possible(e, step) && ValidPolicy(d.config.statePolicy)
    ensures ServerInv(d, After(d, e, step))
  {
    hide ServerInv, Possible, After;
    match step
    case Enroll(_, _, _, _) => EnrollKeeps(d, e, step);
    case Begun(r, read) => BegunKeeps(d, e, r, read);
    case Continued(i, read) => ContinuedKeeps(d, e, i, read);
    case Touched(_, _, _) => TouchedKeeps(d, e, step);
    case Finished(_, _, _, _) => FinishKeeps(d, e, step);
    case Swept(now) => SweptKeeps(d, e, now);
  }

  lemma BootHolds(d: Deployment, now: Time)
    requires now > ZERO_TIME && ValidPolicy(d.config.statePolicy)
    ensures ServerInv(d, Boot(now))
  {
    StartHolds(now, d.config.statePolicy);
    hide Inv;
  }

  lemma {:induction false} ServerRunKeeps(d: Deployment, e: Server, steps: seq<Step>)
    requires ServerInv(d, e) && ServerLegal(d, e, steps) && ValidPolicy(d.config.statePolicy)
    ensures ServerInv(d, ServerRun(d, e, steps))
    decreases |steps|
  {
    hide ServerInv, Possible, After;
    if steps != [] {
      ServerStepKeeps(d, e, steps[0]);
      ServerRunKeeps(d, After(d, e, steps[0]), steps[1..]);
    }
  }
}
