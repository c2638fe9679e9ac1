/**
 Two runs of the server, call by call: a whole flow from registration to a code that is
 approved at the last moment, which shows exactly when the configuration's lifetime rule does
 what it is for; and an authorization overtaken between its touch and its creation.
 */
module EngineScenarios {
  import opened Scopes
  import opened Model
  import opened Transitions
  import opened StoreSpec
  import opened StoreRuns
  import opened References
  import opened Config
  import opened Registry
  import opened Plans
  import opened Requests
  import opened Books
  import opened EngineRuns
  import opened EngineSafety
  import Engine

  /** An accepted configuration, served with the registry built from it. */
  ghost predicate Deployed(d: Deployment) {
    && Accepted(d.config, d.urls)
    && Buildable(d.config.resources, d.config.supportedScopes, d.urls)
    && d.resources == Filled(d.config.resources, d.config.supportedScopes, d.urls)
  }

  // -------------------------------------------------------------------------
  // The calls of the flow
  // -------------------------------------------------------------------------

  function Requested(d: Deployment): seq<string> {
    if d.config.supportedScopes == [] then [] else [d.config.supportedScopes[0]]
  }

  function Metadata(d: Deployment, redirect: string): Engine.RegisterInput {
    Engine.RegisterInput("x", [redirect], Requested(d))
  }

  function Entry(d: Deployment, redirect: string, at: Time): Request
    requires d.config.resources != []
  {
    Authorize(BeginInput("c", redirect, "code", "s", Some(PKCEChallenge("", "S256")), [], d.config.resources[0].id),
              Some("t"), at)
  }

  /** The one call under way carries this plan. */
  predicate OnlyPlanned(e: Server, i: nat, plan: Plan) {
    e.pending.Keys == {i} && e.pending[i].Planned? && e.pending[i].plan == plan
  }

  const USER: Principal := Principal("p", "", "", 0, "")

  function SignIn(at: Time): Request {
    LogIn("t", USER, LoginAnswers(at, Some([]), Some("u"), at))
  }

  function Approval(at: Time): Request {
    Resolve("u", Approve, [], DecideAnswers(at, Some("k"), at))
  }

  // -------------------------------------------------------------------------
  // Registration and the first read
  // -------------------------------------------------------------------------

  lemma OneScope(s: ScopeSet)
    requires s != []
    ensures FromValues([s[0]]) == Some([s[0]]) && IsSubsetOf([s[0]], s)
  {
    var one: ScopeSet := [s[0]];
    FromValuesOfMembers(one);
    assert Elements(one) <= Elements(s);
  }

  lemma NoScopes()
    ensures FromValues([]) == Some([]) && forall s: ScopeSet :: IsSubsetOf([], s)
  {
    assert FromValues([]) == Some([]) by {
      FromValuesOfMembers([]);
    }
  }

  lemma MetadataIsAccepted(d: Deployment, redirect: string)
    requires Deployed(d) && Engine.RedirectAccepted(d, redirect)
    ensures Engine.MetadataAccepted(d, Metadata(d, redirect))
    ensures Engine.RequestedScopes(d, Metadata(d, redirect)).Some?
  {
    hide FromValues, Buildable, Filled, TrimSpace, IsSubsetOf, Engine.RedirectAccepted, ResourceAccepted, DistinctIDs;
    NoScopes();
    if d.config.supportedScopes != [] {
      OneScope(d.config.supportedScopes);
    }
  }

  /** Only the client "c" is stored, nothing else, and its call has returned. */
  ghost predicate Enrolled(d: Deployment, e: Server, redirect: string, now: Time) {
    && e.w == StoreRuns.Start(now).(store := EMPTY.(clients := e.w.store.clients))
    && e.calls == 1 && e.pending == map[] && e.drawn.Keys == {"c"}
    && e.w.store.clients.Keys == {"c"} && e.w.store.clients["c"].trust == Unverified
    && e.w.store.clients["c"].id == "c" && e.w.store.clients["c"].redirectURIs == [TrimSpace(redirect)]
  }

  lemma EnrollGoes(d: Deployment, redirect: string, now: Time)
    requires Deployed(d) && Engine.RedirectAccepted(d, redirect)
    ensures var step := Enroll(Metadata(d, redirect), "c", now, now);
            Possible(Boot(now), step) && Enrolled(d, After(d, Boot(now), step), redirect, now)
  {
    hide Deployed, Engine.MetadataAccepted, Engine.RequestedScopes, Engine.RedirectAccepted, TrimSpace, Enabled, Run;
    hide Next;
    MetadataIsAccepted(d, redirect);
    LimitsAreSet(d);
    var client := Engine.NewClient(d, Metadata(d, redirect), "c", now);
    FirstRegistration(client, now, d.config.statePolicy);
    OneCall(StoreRuns.Start(now), Register(client, now), d.config.statePolicy);
    assert TrimAll([redirect]) == [TrimSpace(redirect)];
  }

  lemma LimitsAreSet(d: Deployment)
    requires Deployed(d)
    ensures ValidPolicy(d.config.statePolicy) && d.config.statePolicy.capacity.maxAuthorizations > 0
    ensures d.config.statePolicy.capacity.maxConsents > 0 && d.config.statePolicy.capacity.maxCodes > 0
    ensures d.config.http.maxFieldBytes > 0 && d.config.resources != [] && LifetimesAccepted(d.config)
    ensures d.config.statePolicy.registration.unverifiedClientTTL > 0
  {
    hide Buildable, Filled, ResourceAccepted, DistinctIDs, LifetimesAccepted;
  }

  lemma FirstResource(d: Deployment)
    requires Deployed(d) && d.config.resources != []
    ensures var id := NewURLIdentifier(d.config.resources[0].id, d.urls);
            id.Some? && id.value in d.resources
  {
    hide TrimSpace, FromValues, IsSubsetOf, Filled, ResourceOf, LifetimesAccepted, LimitsAccepted, DistinctIDs;
    FilledContents(d.config.resources, d.config.supportedScopes, d.urls);
    assert ResourceAccepted(d.config.resources[0], d.config.supportedScopes, d.urls);
  }

  /** The call of "c" has read its client and carries this plan. */
  ghost predicate Entering(d: Deployment, e: Server, redirect: string, at: Time, plan: Plan) {
    && plan.PlanBegin? && plan.at == at && plan.auth.token == "t" && plan.auth.clientID == "c"
    && plan.auth.redirectURI == TrimSpace(redirect) && plan.auth.consumedAt == ZERO_TIME
    && plan.auth.expiresAt == at + d.config.transactionTTL
    && plan.auth.resource in d.resources && plan.auth.requestedScopes == []
    && e.calls == 2 && e.drawn.Keys == {"c", "t"}
  }

  lemma IdentifierC()
    ensures NewIdentifier("c") == Some("c") && NewIdentifier("p") == Some("p")
  {
    IdentifierIsOwnText("c");
    IdentifierIsOwnText("p");
  }

  lemma EntryGoes(d: Deployment, e: Server, redirect: string, now: Time, at: Time)
    requires Deployed(d) && Engine.RedirectAccepted(d, redirect)
    requires Enrolled(d, e, redirect, now) && now <= at
    ensures Possible(e, Begun(Entry(d, redirect, at), None))
    ensures var after := After(d, e, Begun(Entry(d, redirect, at), None));
            && after.w == e.w && after.pending.Keys == {1} && after.pending[1].Touching? && after.pending[1].id == "c"
            && Entering(d, after, redirect, at, after.pending[1].plan)
  {
    hide Deployed, NewIdentifier, FromValues, IsSubsetOf, TrimSpace, After, Draw;
    LimitsAreSet(d);
    FirstResource(d);
    IdentifierC();
    NoScopes();
    BegunMoves(d, e, Entry(d, redirect, at), None);
    BegunDraws(d, e, Entry(d, redirect, at), None);
  }

  lemma BegunDraws(d: Deployment, e: Server, r: Request, read: Source)
    ensures After(d, e, Begun(r, read)).drawn.Keys == e.drawn.Keys + Secrets(r)
    ensures After(d, e, Begun(r, read)).calls == e.calls + 1
  {
    hide Prepare, Secrets, Keep, Seen;
  }

  lemma TouchGoes(d: Deployment, e: Server, redirect: string, now: Time, at: Time)
    requires e.w.store.clients.Keys == {"c"} && e.w.store == EMPTY.(clients := e.w.store.clients) && e.w.now == now
    requires e.pending.Keys == {1} && e.pending[1].Touching? && e.pending[1].id == "c"
    requires Entering(d, e, redirect, at, e.pending[1].plan)
    ensures Possible(e, Touched(1, now, false))
    ensures var after := After(d, e, Touched(1, now, false));
            && after.pending == map[1 := Planned(e.pending[1].request, e.pending[1].plan)]
            && after.calls == e.calls && after.drawn == e.drawn
            && after.w == e.w.(store := after.w.store) && after.w.store == EMPTY.(clients := after.w.store.clients)
            && after.w.store.clients == map["c" := e.w.store.clients["c"].(lastUsedAt := now)]
  {
    hide Entering, Run, Next, Enabled;
    assert e.pending[1].plan.PlanBegin? && e.pending[1].plan.auth.clientID == "c" && e.calls == 2 by {
      EntersForC(d, e, redirect, at, e.pending[1].plan);
    }
    TouchStep(e.w, "c", now, d.config.statePolicy);
    OneCall(e.w, Touch("c", now), d.config.statePolicy);
  }

  lemma EntersForC(d: Deployment, e: Server, redirect: string, at: Time, plan: Plan)
    requires Entering(d, e, redirect, at, plan)
    ensures plan.PlanBegin? && plan.auth.clientID == "c" && e.calls == 2
  {
  }

  // -------------------------------------------------------------------------
  // From the transaction to the code
  // -------------------------------------------------------------------------

  /** The transaction "t" is stored and live. */
  ghost predicate Transacting(d: Deployment, e: Server, redirect: string, now: Time, auth: Authorization) {
    && e.w.now == now && e.calls == 2 && e.pending == map[] && e.drawn.Keys == {"c", "t"}
    && e.w.store.authorizations == map[DigestOf("t") := auth] && e.w.store.consents == map[] && e.w.store.codes == map[]
    && e.w.store.clients.Keys == {"c"} && e.w.store.clients["c"].id == "c"
    && e.w.store.clients["c"].redirectURIs == [TrimSpace(redirect)]
    && auth.clientID == "c" && auth.redirectURI == TrimSpace(redirect) && auth.consumedAt == ZERO_TIME
    && now < auth.expiresAt && auth.resource in d.resources && auth.requestedScopes == []
  }

  lemma CreationGoes(d: Deployment, e: Server, redirect: string, now: Time, plan: Plan)
    requires Entering(d, e, redirect, now, plan) && OnlyPlanned(e, 1, plan) && e.w.now == now
    requires e.w.store == EMPTY.(clients := e.w.store.clients) && e.w.store.clients.Keys == {"c"}
    requires e.w.store.clients["c"].id == "c" && e.w.store.clients["c"].redirectURIs == [TrimSpace(redirect)]
    requires d.config.transactionTTL > 0 && d.config.statePolicy.capacity.maxAuthorizations > 0
    ensures Possible(e, Finished(1, now, now, false))
    ensures Transacting(d, After(d, e, Finished(1, now, now, false)), redirect, now, plan.auth)
  {
    hide TrimSpace, Run, Next, Enabled, Record, Book;
    var call := Create(plan.auth, now);
    assert Prune(e.w.store, now) == e.w.store;
    BeginOutcome(e.w.store, plan.auth, d.config.statePolicy);
    OneCall(e.w, call, d.config.statePolicy);
    NextWorld(e.w, call, d.config.statePolicy);
    NextClock(e.w, call, d.config.statePolicy);
  }

  lemma NextClock(w: World, call: Event, policy: StatePolicy)
    ensures Next(w, call, policy).now == TimeAfter(call, w.now)
  {
    hide Apply, Record, TimeAfter;
  }

  lemma SignInGoes(d: Deployment, e: Server, redirect: string, now: Time, auth: Authorization)
    requires Transacting(d, e, redirect, now, auth)
    ensures Possible(e, Begun(SignIn(now), None))
    ensures var after := After(d, e, Begun(SignIn(now), None));
            && after.w == e.w && after.calls == 3 && after.drawn.Keys == {"c", "t", "u"}
            && after.pending == map[2 := LoginRead("t", USER, auth, LoginAnswers(now, Some([]), Some("u"), now))]
  {
    hide TrimSpace, Run;
    NoCalls(e.w, d.config.statePolicy);
  }

  /** The login has read its client and carries this plan. */
  ghost predicate SigningIn(d: Deployment, auth: Authorization, now: Time, plan: Plan) {
    && plan.PlanLogin? && plan.at == now && plan.login.transaction == DigestOf("t")
    && plan.login.consent.token == "u" && plan.login.consent.consumedAt == ZERO_TIME
    && LoginBound(auth, plan.login.consent)
    && plan.login.consent.authorizationEnds == now + d.config.refreshTTL
    && plan.login.consent.expiresAt == now + d.config.consentTTL
  }

  lemma ReadingGoes(d: Deployment, e: Server, redirect: string, now: Time, auth: Authorization)
    requires e.pending == map[2 := LoginRead("t", USER, auth, LoginAnswers(now, Some([]), Some("u"), now))]
    requires e.w.store.clients.Keys == {"c"} && e.w.store.clients["c"].id == "c"
    requires e.w.store.clients["c"].redirectURIs == [TrimSpace(redirect)]
    requires auth.clientID == "c" && auth.redirectURI == TrimSpace(redirect) && now < auth.expiresAt
    requires auth.resource in d.resources
    ensures Possible(e, Continued(2, None))
    ensures var after := After(d, e, Continued(2, None));
            && after == e.(pending := after.pending) && after.pending.Keys == {2} && after.pending[2].Planned?
            && SigningIn(d, auth, now, after.pending[2].plan)
  {
    hide TrimSpace, Run, NewIdentifier, Intersection, LoginBound;
    IdentifierC();
    NoCalls(e.w, d.config.statePolicy);
    LoginKnown(d, "t", USER, auth, Some(e.w.store.clients["c"]), LoginAnswers(now, Some([]), Some("u"), now));
  }

  /** The consent "u" is stored and live. */
  ghost predicate Consenting(d: Deployment, e: Server, now: Time, consent: Consent) {
    && e.w.now == now && e.calls == 3 && e.pending == map[] && e.drawn.Keys == {"c", "t", "u"}
    && e.w.store.consents == map[DigestOf("u") := consent] && e.w.store.codes == map[]
    && consent.consumedAt == ZERO_TIME
    && consent.authorizationEnds == now + d.config.refreshTTL && consent.expiresAt == now + d.config.consentTTL
  }

  lemma LoginGoes(d: Deployment, e: Server, redirect: string, now: Time, auth: Authorization, plan: Plan)
    requires SigningIn(d, auth, now, plan) && OnlyPlanned(e, 2, plan) && e.w.now == now && e.calls == 3
    requires e.drawn.Keys == {"c", "t", "u"} && e.w.store.authorizations == map[DigestOf("t") := auth]
    requires e.w.store.consents == map[] && e.w.store.codes == map[]
    requires auth.consumedAt == ZERO_TIME && now < auth.expiresAt
    requires d.config.refreshTTL > 0 && d.config.consentTTL > 0 && d.config.statePolicy.capacity.maxConsents > 0
    ensures Possible(e, Finished(2, now, now, false))
    ensures Consenting(d, After(d, e, Finished(2, now, now, false)), now, plan.login.consent)
  {
    hide Run, Next, Enabled, Record, Book, LoginBound, ValidateLoginCommit, PruneRefresh;
    var policy, call := d.config.statePolicy, StoreSpec.Login(plan.login, now, now);
    var p := Prune(e.w.store, now);
    assert p.authorizations == e.w.store.authorizations && p.consents == map[] && p.codes == map[];
    LoginOutcome(p, plan.login, policy, now);
    OneCall(e.w, call, policy);
    NextWorld(e.w, call, policy);
    NextClock(e.w, call, policy);
  }

  lemma ApprovalGoes(d: Deployment, e: Server, now: Time, consent: Consent, at: Time)
    requires Consenting(d, e, now, consent) && now <= at < consent.expiresAt
    ensures Possible(e, Begun(Approval(at), None))
    ensures var after := After(d, e, Begun(Approval(at), None));
            && after.w == e.w && after.pending.Keys == {3} && after.pending[3].Planned?
            && var plan := after.pending[3].plan;
            && plan.PlanDecide? && plan.at == at && plan.decide.consent == DigestOf("u")
            && plan.decide.decision == Approve && plan.decide.code.digest == DigestOf("k")
            && ConsentBound(consent, plan.decide.code) && plan.decide.code.expiresAt == at + d.config.codeTTL
  {
    hide Run, FromValues, IsSubsetOf;
    NoScopes();
    NoCalls(e.w, d.config.statePolicy);
  }

  lemma DecisionGoes(d: Deployment, e: Server, now: Time, consent: Consent, at: Time, plan: Plan)
    requires plan.PlanDecide? && plan.at == at && plan.decide.consent == DigestOf("u")
    requires plan.decide.decision == Approve && plan.decide.code.digest == DigestOf("k")
    requires ConsentBound(consent, plan.decide.code) && plan.decide.code.expiresAt == at + d.config.codeTTL
    requires OnlyPlanned(e, 3, plan) && e.w.now == now <= at < consent.expiresAt
    requires e.w.store.consents == map[DigestOf("u") := consent] && e.w.store.codes == map[]
    requires consent.consumedAt == ZERO_TIME
    requires d.config.codeTTL > 0 && d.config.statePolicy.capacity.maxCodes > 0
    ensures Possible(e, Finished(3, at, at, false))
    ensures var after := After(d, e, Finished(3, at, at, false));
            DigestOf("k") in after.w.past.codes && after.w.past.codes[DigestOf("k")].record == plan.decide.code
  {
    hide Run, Next, Enabled, Book, ConsentBound, ValidateConsentCommit, PruneRefresh, PruneAuthorizations;
    var policy, call := d.config.statePolicy, Decide(plan.decide, at, at);
    var p := Prune(e.w.store, at);
    assert p.consents == e.w.store.consents && p.codes == map[];
    DecideOutcome(p, plan.decide, policy, at);
    OneCall(e.w, call, policy);
    NextWorld(e.w, call, policy);
  }

  // -------------------------------------------------------------------------
  // The whole flow
  // -------------------------------------------------------------------------

  /** Registration, authorization and login at `now`, and the approval at `at`. */
  function Flow(d: Deployment, redirect: string, now: Time, at: Time): seq<Step>
    requires d.config.resources != []
  {
    [Enroll(Metadata(d, redirect), "c", now, now),
     Begun(Entry(d, redirect, now), None), Touched(1, now, false), Finished(1, now, now, false),
     Begun(SignIn(now), None), Continued(2, None), Finished(2, now, now, false),
     Begun(Approval(at), None), Finished(3, at, at, false)]
  }

  lemma Onward(d: Deployment, e: Server, step: Step, rest: seq<Step>)
    ensures ServerLegal(d, e, [step] + rest) <==> Possible(e, step) && ServerLegal(d, After(d, e, step), rest)
    ensures ServerRun(d, e, [step] + rest) == ServerRun(d, After(d, e, step), rest)
  {
    hide Possible, After;
    assert ([step] + rest)[1..] == rest;
  }

  /** The transaction part of the flow goes through. */
  lemma EntryFlow(d: Deployment, redirect: string, now: Time) returns (e: Server, auth: Authorization)
    requires now > ZERO_TIME && Deployed(d) && Engine.RedirectAccepted(d, redirect)
    ensures Transacting(d, e, redirect, now, auth)
    ensures forall rest ::
              ServerLegal(d, e, rest) ==> ServerLegal(d, Boot(now), Flow(d, redirect, now, now)[..4] + rest)
    ensures forall rest ::
              ServerRun(d, Boot(now), Flow(d, redirect, now, now)[..4] + rest) == ServerRun(d, e, rest)
  {
    hide Deployed, Possible, After, Entering, Transacting, ServerLegal, ServerRun, Engine.RedirectAccepted, Entry;
    hide Metadata;
    LimitsAreSet(d);
    var steps := Flow(d, redirect, now, now);
    EnrollGoes(d, redirect, now);
    var e1 := After(d, Boot(now), steps[0]);
    EntryGoes(d, e1, redirect, now, now);
    var e2 := After(d, e1, steps[1]);
    TouchGoes(d, e2, redirect, now, now);
    var e3 := After(d, e2, steps[2]);
    EnteringStays(d, e2, e3, redirect, now, e2.pending[1].plan);
    CreationGoes(d, e3, redirect, now, e2.pending[1].plan);
    e, auth := After(d, e3, steps[3]), e2.pending[1].plan.auth;
    forall rest: seq<Step>
      ensures ServerLegal(d, e, rest) ==> ServerLegal(d, Boot(now), steps[..4] + rest)
      ensures ServerRun(d, Boot(now), steps[..4] + rest) == ServerRun(d, e, rest)
    {
      var r3 := [steps[3]] + rest;
      var r2 := [steps[2]] + r3;
      var r1 := [steps[1]] + r2;
      assert steps[..4] + rest == [steps[0]] + r1;
      Onward(d, Boot(now), steps[0], r1);
      Onward(d, e1, steps[1], r2);
      Onward(d, e2, steps[2], r3);
      Onward(d, e3, steps[3], rest);
    }
  }

  lemma EnteringStays(d: Deployment, e: Server, e': Server, redirect: string, at: Time, plan: Plan)
    requires Entering(d, e, redirect, at, plan) && e'.calls == e.calls && e'.drawn == e.drawn
    ensures Entering(d, e', redirect, at, plan)
  {
  }

  /** And so does the rest, with the code approved at any time before the consent runs out. */
  lemma ApprovalFlow(d: Deployment, e: Server, redirect: string, now: Time, auth: Authorization, at: Time)
    requires Deployed(d) && d.config.resources != [] && d.config.refreshTTL > 0
    requires Transacting(d, e, redirect, now, auth) && now <= at < now + d.config.consentTTL
    ensures var rest := Flow(d, redirect, now, at)[4..];
            && ServerLegal(d, e, rest)
            && var codes := ServerRun(d, e, rest).w.past.codes;
            && DigestOf("k") in codes && codes[DigestOf("k")].record.expiresAt == at + d.config.codeTTL
            && codes[DigestOf("k")].record.authorizationEnds == now + d.config.refreshTTL
  {
    hide Deployed, Possible, After, SigningIn, ServerLegal, ServerRun, LoginBound, ConsentBound, TrimSpace, Entry;
    hide Metadata;
    LimitsAreSet(d);
    var steps := Flow(d, redirect, now, at);
    SignInGoes(d, e, redirect, now, auth);
    var e5 := After(d, e, steps[4]);
    ReadingGoes(d, e5, redirect, now, auth);
    var e6 := After(d, e5, steps[5]);
    var login := e6.pending[2].plan;
    LoginIs(d, auth, now, login);
    LoginGoes(d, e6, redirect, now, auth, login);
    var e7 := After(d, e6, steps[6]);
    var consent := login.login.consent;
    ApprovalGoes(d, e7, now, consent, at);
    var e8 := After(d, e7, steps[7]);
    var decision := e8.pending[3].plan;
    DecisionGoes(d, e8, now, consent, at, decision);
    CodeEnds(consent, decision.decide.code);
    var r8 := [steps[8]];
    assert r8 == [steps[8]] + [];
    assert steps[4..] == [steps[4]] + ([steps[5]] + ([steps[6]] + ([steps[7]] + r8)));
    Onward(d, e8, steps[8], []);
    Onward(d, e7, steps[7], r8);
    Onward(d, e6, steps[6], [steps[7]] + r8);
    Onward(d, e5, steps[5], [steps[6]] + ([steps[7]] + r8));
    Onward(d, e, steps[4], [steps[5]] + ([steps[6]] + ([steps[7]] + r8)));
    NoSteps(d, After(d, e8, steps[8]));
  }

  lemma NoSteps(d: Deployment, e: Server)
    ensures ServerLegal(d, e, []) && ServerRun(d, e, []) == e
  {
  }

  lemma LoginIs(d: Deployment, auth: Authorization, now: Time, plan: Plan)
    requires SigningIn(d, auth, now, plan)
    ensures plan.PlanLogin?
  {
  }

  lemma CodeEnds(c: Consent, k: Code)
    requires ConsentBound(c, k)
    ensures k.authorizationEnds == c.authorizationEnds
  {
  }

  // -------------------------------------------------------------------------
  // The gap between touch and creation
  // -------------------------------------------------------------------------

  lemma EvictionGoes(d: Deployment, e: Server, redirect: string, c: Client, now: Time, later: Time)
    requires Deployed(d) && Engine.RedirectAccepted(d, redirect)
    requires e.w == Registered(c, now) && c.trust == Unverified && c.lastUsedAt == now && e.drawn.Keys == {"c", "t"}
    requires later == now + d.config.statePolicy.registration.unverifiedClientTTL
    requires d.config.statePolicy.registration.unverifiedClientTTL > 0
    ensures Possible(e, Enroll(Metadata(d, redirect), "d", later, later))
    ensures var after := After(d, e, Enroll(Metadata(d, redirect), "d", later, later));
            after.pending == e.pending && exists other: Client :: other.id == "d" && after.w == Registered(other, later)
  {
    hide Deployed, Engine.MetadataAccepted, Engine.RequestedScopes, Engine.RedirectAccepted, TrimSpace, Enabled, Run;
    hide Next;
    MetadataIsAccepted(d, redirect);
    LimitsAreSet(d);
    var other := Engine.NewClient(d, Metadata(d, redirect), "d", later);
    SecondRegistration(c, other, now, later, d.config.statePolicy);
    OneCall(e.w, Register(other, later), d.config.statePolicy);
    assert other.id == "d"
           && After(d, e, Enroll(Metadata(d, redirect), "d", later, later)).w == Registered(other, later);
  }

  lemma LateCreationGoes(d: Deployment, e: Server, redirect: string, other: Client, later: Time, plan: Plan)
    requires plan.PlanBegin? && plan.at == later && plan.auth.clientID == "c" && plan.auth.consumedAt == ZERO_TIME
    requires later < plan.auth.expiresAt && OnlyPlanned(e, 1, plan)
    requires e.w == Registered(other, later) && other.id == "d" && d.config.statePolicy.capacity.maxAuthorizations > 0
    ensures Possible(e, Finished(1, later, later, false))
    ensures !LiveStateHasClients(After(d, e, Finished(1, later, later, false)).w)
  {
    hide Run, Next, Enabled, LiveStateHasClients, Book;
    FirstCreation(other, plan.auth, later, d.config.statePolicy);
    OneCall(e.w, Create(plan.auth, later), d.config.statePolicy);
  }

  /** Registration, touch, another registration one idle time later, and only then the creation. */
  function Gap(d: Deployment, redirect: string, now: Time, later: Time): seq<Step>
    requires d.config.resources != []
  {
    [Enroll(Metadata(d, redirect), "c", now, now), Begun(Entry(d, redirect, later), None), Touched(1, now, false),
     Enroll(Metadata(d, redirect), "d", later, later), Finished(1, later, later, false)]
  }

  /**
   The same gap in the engine: for every accepted configuration, `BeginAuthorization` may
   touch its client, be overtaken by a registration one idle time later, and then create a
   live transaction whose client is gone.
   */
  lemma GapLosesClient(d: Deployment, redirect: string, now: Time)
    requires now > ZERO_TIME && Deployed(d) && Engine.RedirectAccepted(d, redirect)
    ensures var steps := Gap(d, redirect, now, now + d.config.statePolicy.registration.unverifiedClientTTL);
            ServerLegal(d, Boot(now), steps) && !LiveStateHasClients(ServerRun(d, Boot(now), steps).w)
  {
    hide Deployed, Possible, After, Entering, ServerLegal, ServerRun, Engine.RedirectAccepted, Entry, Metadata;
    hide LiveStateHasClients;
    LimitsAreSet(d);
    var later := now + d.config.statePolicy.registration.unverifiedClientTTL;
    var steps := Gap(d, redirect, now, later);
    EnrollGoes(d, redirect, now);
    var e1 := After(d, Boot(now), steps[0]);
    EntryGoes(d, e1, redirect, now, later);
    var e2 := After(d, e1, steps[1]);
    TouchGoes(d, e2, redirect, now, later);
    var e3, plan := After(d, e2, steps[2]), e2.pending[1].plan;
    EnteringStays(d, e2, e3, redirect, later, plan);
    EntersLive(d, e3, redirect, later, plan);
    EvictionGoes(d, e3, redirect, e3.w.store.clients["c"], now, later);
    var e4 := After(d, e3, steps[3]);
    var other: Client :| other.id == "d" && e4.w == Registered(other, later);
    LateCreationGoes(d, e4, redirect, other, later, plan);
    var r4 := [steps[4]];
    assert r4 == [steps[4]] + [];
    assert steps == [steps[0]] + ([steps[1]] + ([steps[2]] + ([steps[3]] + r4)));
    NoSteps(d, After(d, e4, steps[4]));
    Onward(d, e4, steps[4], []);
    Onward(d, e3, steps[3], r4);
    Onward(d, e2, steps[2], [steps[3]] + r4);
    Onward(d, e1, steps[1], [steps[2]] + ([steps[3]] + r4));
    Onward(d, Boot(now), steps[0], [steps[1]] + ([steps[2]] + ([steps[3]] + r4)));
  }

  lemma EntersLive(d: Deployment, e: Server, redirect: string, at: Time, plan: Plan)
    requires Entering(d, e, redirect, at, plan) && d.config.transactionTTL > 0
    ensures plan.PlanBegin? && plan.at == at && plan.auth.clientID == "c" && plan.auth.consumedAt == ZERO_TIME
    ensures at < plan.auth.expiresAt && e.drawn.Keys == {"c", "t"}
  {
  }

  // -------------------------------------------------------------------------
  // The lifetime rule
  // -------------------------------------------------------------------------

  ghost predicate CodesFirst(e: Server) {
    forall k | k in e.w.past.codes :: e.w.past.codes[k].record.expiresAt < e.w.past.codes[k].record.authorizationEnds
  }

  ghost predicate AlwaysCodesFirst(d: Deployment, now: Time) {
    forall steps | ServerLegal(d, Boot(now), steps) :: CodesFirst(ServerRun(d, Boot(now), steps))
  }

  lemma InTimeWithoutOverflow(d: Deployment, now: Time, steps: seq<Step>)
    requires now > ZERO_TIME && ValidPolicy(d.config.statePolicy) && ServerLegal(d, Boot(now), steps)
    requires LifetimesAccepted(d.config) && d.config.consentTTL + d.config.codeTTL < INT64_HALF
    ensures CodesFirst(ServerRun(d, Boot(now), steps))
  {
    hide ServerLegal, ServerRun, LifetimesAccepted;
    CodesExpireFirst(d, now, steps);
  }

  /** Without a positive refresh lifetime no consent is ever stored, and so no code. */
  lemma CodesNeedTime(d: Deployment, now: Time, steps: seq<Step>)
    requires now > ZERO_TIME && ValidPolicy(d.config.statePolicy) && ServerLegal(d, Boot(now), steps)
    ensures ServerRun(d, Boot(now), steps).w.past.codes != map[] ==> d.config.refreshTTL > 0
  {
    hide ServerInv, ServerLegal, ServerRun, Booked, Inv;
    EngineIsLegal(d, now, steps);
    var e := ServerRun(d, Boot(now), steps);
    ServerParts(d, e);
    if e.w.past.codes != map[] {
      var k :| k in e.w.past.codes;
      CodeHasTime(d, e.w.past, e.ledger, k);
    }
  }

  lemma CodeHasTime(d: Deployment, past: Past, ledger: Ledger, k: CredentialDigest)
    requires k in past.codes && Booked(d, past, ledger)
    ensures d.config.refreshTTL > 0
  {
    hide Booked, AuthsBooked, GrantsBooked, IssuesBooked, ConsentBooked, DecisionFits;
    BookedParts(d, past, ledger);
    var c := past.codes[k].consent;
    ConsentHasTime(d, past.auths, ledger.registered, past.consents[c], ledger.requests[c]);
  }

  lemma NoCodesFirst(e: Server)
    requires e.w.past.codes == map[]
    ensures CodesFirst(e)
  {
  }

  lemma ConsentHasTime(d: Deployment, auths: Auths, registered: map<ClientID, Client>, entry: ConsentEntry, r: Request)
    requires ConsentBooked(d, auths, registered, entry, r)
    ensures d.config.refreshTTL > 0
  {
  }

  /**
   Where the sum of lifetimes overflows, an approval at the last moment makes a code that
   outlives its authorization.
   */
  lemma OverflowingRun(d: Deployment, redirect: string, now: Time) returns (steps: seq<Step>)
    requires now > ZERO_TIME && Deployed(d) && Engine.RedirectAccepted(d, redirect)
    requires d.config.consentTTL + d.config.codeTTL >= INT64_HALF && d.config.refreshTTL > 0
    ensures ServerLegal(d, Boot(now), steps) && !CodesFirst(ServerRun(d, Boot(now), steps))
  {
    hide Deployed, Transacting, ServerLegal, ServerRun, Engine.RedirectAccepted, Entry, Metadata;
    LimitsAreSet(d);
    var at := now + d.config.consentTTL - 1;
    var e, auth := EntryFlow(d, redirect, now);
    ApprovalFlow(d, e, redirect, now, auth, at);
    var rest := Flow(d, redirect, now, at)[4..];
    steps := Flow(d, redirect, now, now)[..4] + rest;
    var codes := ServerRun(d, e, rest).w.past.codes;
    assert codes[DigestOf("k")].record.expiresAt >= codes[DigestOf("k")].record.authorizationEnds;
  }

  /**
   For an accepted configuration, with any redirect URI that can be registered, every code of
   every run expires strictly before its authorization ends exactly when the sum of the
   consent and code lifetimes does not overflow, or no refresh lifetime is left to grant.
   */
  lemma CodesExpireFirstExactly(d: Deployment, redirect: string, now: Time)
    requires now > ZERO_TIME && Deployed(d) && Engine.RedirectAccepted(d, redirect)
    ensures AlwaysCodesFirst(d, now)
            <==> d.config.consentTTL + d.config.codeTTL < INT64_HALF || d.config.refreshTTL <= 0
  {
    hide Deployed, ServerLegal, ServerRun, Engine.RedirectAccepted, CodesFirst;
    LimitsAreSet(d);
    if d.config.consentTTL + d.config.codeTTL < INT64_HALF {
      forall steps | ServerLegal(d, Boot(now), steps)
        ensures CodesFirst(ServerRun(d, Boot(now), steps))
      {
        InTimeWithoutOverflow(d, now, steps);
      }
    } else if d.config.refreshTTL <= 0 {
      forall steps | ServerLegal(d, Boot(now), steps)
        ensures CodesFirst(ServerRun(d, Boot(now), steps))
      {
        CodesNeedTime(d, now, steps);
        NoCodesFirst(ServerRun(d, Boot(now), steps));
      }
    } else {
      var steps := OverflowingRun(d, redirect, now);
    }
  }
}
