/**
 What the callers of the engine are told over every run of the server: exactly when a call
 succeeds and which error it gets otherwise, and that what it is handed is there to be used.
 */
module EngineReplies {
  import opened Scopes
  import opened Model
  import opened Transitions
  import opened StoreSpec
  import opened StoreRuns
  import opened StoreSafety
  import opened FamilySafety
  import opened Config
  import opened Plans
  import opened Requests
  import opened Books
  import opened EngineRuns
  import opened EngineSafety
  import opened EngineTokens
  import Engine

  /** What the call returns when its commit has been answered. */
  ghost function Returned(d: Deployment, e: Server, step: Step): Reply
    requires Committing(e, step)
  {
    ReplyOf(e.pending[step.i].plan, Answer(d, e, step))
  }

  // -------------------------------------------------------------------------
  // Exactly which reply
  // -------------------------------------------------------------------------

  /** The transaction that a login spends is still there to be spent. */
  ghost predicate StillOpen(s: State, plan: Plan, now: Time)
    requires plan.PlanLogin?
  {
    var tx := plan.login.transaction;
    tx in s.authorizations && s.authorizations[tx].consumedAt == ZERO_TIME && now < s.authorizations[tx].expiresAt
  }

  /**
   The reply to a commit. What is late is an invalid grant, except a consent that ran out
   before it was stored; a full table is temporary, and so is a store that fails.
   */
  ghost function Told(s: State, plan: Plan, policy: StatePolicy, pruneAt: Time, now: Time, fault: bool): Reply {
    if plan.PlanRevoke? then
      if plan.cause.Withdrawal? then (if fault then StoreFailure(Fault) else Done)
      else Failure(if fault then Temporary else InvalidGrant)
    else if fault then Failure(Temporary)
    else if !Timely(s, plan, now) then
      Failure(if plan.PlanLogin? && StillOpen(s, plan, now) then Temporary else InvalidGrant)
    else if Full(Prune(s, pruneAt), plan, policy) then Failure(Temporary)
    else if AtLimit(plan, policy) then Failure(InvalidGrant)
    else ReplyOf(plan, Ok)
  }

  /** What is not timely is not after the prune either, and what still lives is kept by it. */
  lemma LateAfterPrune(s: State, plan: Plan, pruneAt: Time, now: Time)
    requires !Timely(s, plan, now) && pruneAt <= now
    ensures !Timely(Prune(s, pruneAt), plan, now)
    ensures plan.PlanLogin? ==> (StillOpen(Prune(s, pruneAt), plan, now) <==> StillOpen(s, plan, now))
  {
    hide Prune;
    LiveRowsSurvive(s, pruneAt, now);
    PruneKeepsRowsOf(s, pruneAt);
  }

  lemma LateLogin(p: State, login: LoginCommit, policy: StatePolicy, now: Time)
    requires login.transaction in p.authorizations ==> LoginBound(p.authorizations[login.transaction], login.consent)
    requires !Timely(p, PlanLogin(login, now), now)
    ensures CommitLogin(p, login, policy, now).1.Err?
    ensures MapStoreError(CommitLogin(p, login, policy, now).1.error, InvalidGrant)
            == if StillOpen(p, PlanLogin(login, now), now) then Temporary else InvalidGrant
  {
    hide IsSubsetOf;
  }

  lemma LateDecision(p: State, decide: ConsentCommit, policy: StatePolicy, now: Time)
    requires decide.decision == Deny ==> decide.code.digest == ZeroDigest
    requires decide.decision != Undecided && !Timely(p, PlanDecide(decide, Done, now), now)
    ensures CommitConsent(p, decide, policy, now).1.Err?
    ensures MapStoreError(CommitConsent(p, decide, policy, now).1.error, InvalidGrant) == InvalidGrant
  {
    hide IsSubsetOf;
  }

  lemma LateExchange(p: State, plan: Plan, policy: StatePolicy, now: Time)
    requires plan.PlanExchange? && !Timely(p, plan, now)
    ensures var r := CommitCodeExchange(p, ExchangeCommit(plan.spent, Some(plan.grant)), policy, now).1;
            r.Err? && MapStoreError(r.error, InvalidGrant) == InvalidGrant
  {
    hide Text, ActiveGrants;
  }

  lemma LateRotation(p: State, plan: Plan, policy: StatePolicy, now: Time)
    requires plan.PlanRotate? && !Timely(p, plan, now)
    ensures var r := CommitRefreshRotation(p, plan.rotation, policy, now).1;
            r.Err? && MapStoreError(r.error, InvalidGrant) == InvalidGrant
  {
    hide IsSubsetOf, RevokeFamily;
  }

  /** A transaction that is stored is the recorded one, to which the consent is bound. */
  lemma StoredIsBound(p: World, login: LoginCommit, policy: StatePolicy)
    requires login.transaction in p.past.auths && LoginBound(p.past.auths[login.transaction], login.consent)
    requires Inv(p, policy)
    ensures login.transaction in p.store.authorizations ==>
              LoginBound(p.store.authorizations[login.transaction], login.consent)
  {
    hide Inv, LoginBound, AuthsKnown;
    InvKnows(p, policy);
    if login.transaction in p.store.authorizations {
      AuthReadKnown(p.store.authorizations, p.past.auths, login.transaction);
      LoginBoundAgain(p.past.auths[login.transaction], p.store.authorizations[login.transaction], login.consent);
    }
  }

  lemma LateCommit(d: Deployment, w: World, registered: map<ClientID, Client>, drawn: map<string, nat>, i: nat,
                   plan: Plan, pruneAt: Time, now: Time)
    requires !plan.Refuse? && !Timely(w.store, plan, now) && w.now <= pruneAt <= now
    requires PlanKnown(d, w.past, registered, drawn, i, plan)
    requires Inv(w, d.config.statePolicy)
    ensures ReplyOf(plan, Apply(w.store, CallOf(plan, pruneAt, now), d.config.statePolicy).1)
            == Told(w.store, plan, d.config.statePolicy, pruneAt, now, false)
  {
    hide Inv, Prune, LoginBound, ConsentBound, ExchangeBound, RotationFact, Owned, MapStoreError;
    hide CommitLogin, CommitConsent, CommitCodeExchange, CommitRefreshRotation, Timely, StillOpen, Full;
    var policy, p := d.config.statePolicy, Pruned(w, pruneAt, now);
    PrunedKeeps(w, pruneAt, now, policy);
    LateAfterPrune(w.store, plan, pruneAt, now);
    if plan.PlanBegin? || plan.PlanRevoke? {
      OthersAreTimely(w.store, plan, now);
    }
    match plan
    case PlanLogin(login, at) =>
      StoredIsBound(p, login, policy);
      TimelyIgnoresRest(p.store, plan, now);
      LateLogin(p.store, login, policy, now);
    case PlanDecide(decide, redirect, at) =>
      TimelyIgnoresRest(p.store, plan, now);
      LateDecision(p.store, decide, policy, now);
    case PlanExchange(_, _, _) => LateExchange(p.store, plan, policy, now);
    case PlanRotate(_, _) => LateRotation(p.store, plan, policy, now);
  }

  lemma OthersAreTimely(s: State, plan: Plan, now: Time)
    requires plan.PlanBegin? || plan.PlanRevoke?
    ensures Timely(s, plan, now)
  {
  }

  lemma TimelyIgnoresRest(s: State, plan: Plan, now: Time)
    requires plan.PlanLogin? || plan.PlanDecide?
    ensures plan.PlanLogin? ==>
              && Timely(s, plan, now) == Timely(s, PlanLogin(plan.login, now), now)
              && StillOpen(s, plan, now) == StillOpen(s, PlanLogin(plan.login, now), now)
    ensures plan.PlanDecide? ==> Timely(s, plan, now) == Timely(s, PlanDecide(plan.decide, Done, now), now)
  {
  }

  /**
   For every commit of every run, and whatever ran since the call's reads: the reply is the
   success of the plan exactly when the record it spends is live, its own record has not run
   out, there is room, and the family is below its last generation.
   */
  lemma RepliesExactly(d: Deployment, e: Server, step: Step)
    requires Committing(e, step) && Possible(e, step)
    requires ServerInv(d, e)
    ensures Returned(d, e, step)
            == Told(e.w.store, e.pending[step.i].plan, d.config.statePolicy, step.pruneAt, step.now, step.fault)
  {
    hide ServerInv, Inv, SecretsStored, PlanKnown, PlanFits, Prune, Timely, StillOpen, Full;
    hide CommitLogin, CommitConsent, CommitCodeExchange, CommitRefreshRotation, CreateAuthorization, RevokeFamily;
    ServerParts(d, e);
    PlanIsKnown(d, e, step);
    var plan := e.pending[step.i].plan;
    if !step.fault && !plan.PlanRevoke? {
      if Timely(e.w.store, plan, step.now) {
        OnlyCapacityRefuses(d, e, step);
      } else {
        LateCommit(d, e.w, e.ledger.registered, e.drawn, step.i, plan, step.pruneAt, step.now);
      }
    }
  }

  // -------------------------------------------------------------------------
  // What a caller is told is so
  // -------------------------------------------------------------------------

  /** The refresh token names the grant that was stored for it, live and active, and both say the same. */
  ghost predicate TokensHold(d: Deployment, e: Server, e': Server, i: nat, r: Request, t: TokenResponse, now: Time) {
    var k := DigestCredential(t.refreshToken);
    && t.refreshToken in e.drawn && e.drawn[t.refreshToken] == i
    && k in e'.w.store.refresh && e'.w.store.refresh[k].Active() && now < e'.w.store.refresh[k].expiresAt
    && ResponseFits(d, e'.w.store.refresh[k], Reading(r), t) && MadeBy(r, e'.w.store.refresh[k].clientID)
    && Issue(t, r) in e'.ledger.issued
  }

  /** The transaction token names the transaction that was asked for, and the rest is the request's own. */
  ghost predicate StartHolds(d: Deployment, e: Server, e': Server, i: nat, r: Request, reply: Reply)
    requires reply.Started?
  {
    var k := DigestCredential(reply.transaction);
    && r.Authorize? && reply.transaction in e.drawn && e.drawn[reply.transaction] == i
    && k in e'.w.store.authorizations && AuthFits(d, r.input, reply.transaction, r.at, e'.w.store.authorizations[k])
    && reply.state == r.input.state && reply.redirectURI == TrimSpace(r.input.redirectURI)
    && NewIdentifier(r.input.clientID) == Some(reply.clientID)
  }

  /** The consent token names a live consent of the user who logged in. */
  ghost predicate SignInHolds(e: Server, e': Server, i: nat, r: Request, token: string, now: Time) {
    var k := DigestCredential(token);
    && r.LogIn? && token in e.drawn && e.drawn[token] == i
    && k in e'.w.store.consents && e'.w.store.consents[k].consumedAt == ZERO_TIME
    && now < e'.w.store.consents[k].expiresAt && e'.w.store.consents[k].principal == r.principal
  }

  /**
   The redirect goes to the URI that the authorization request named, with its state; with a
   code it names a live code for exactly what was selected. The consent is spent either way.
   */
  ghost predicate RedirectHolds(e: Server, e': Server, i: nat, r: Request, reply: Reply, now: Time)
    requires reply.Redirected?
  {
    && r.Resolve? && DigestCredential(r.presented) in e.w.past.consents
    && Spent(e'.w, Session(DigestCredential(r.presented)))
    && var tx := e.w.past.consents[DigestCredential(r.presented)].transaction;
    && tx in e.ledger.requests && e.ledger.requests[tx].Authorize?
    && reply.base == TrimSpace(e.ledger.requests[tx].input.redirectURI)
    && reply.state == e.ledger.requests[tx].input.state
    && (reply.rawCode.Some? <==> r.decision == Approve)
    && (reply.rawCode.Some? ==>
          var k := DigestCredential(reply.rawCode.value);
          && reply.rawCode.value in e.drawn && e.drawn[reply.rawCode.value] == i
          && k in e'.w.store.codes && e'.w.store.codes[k].consumedAt == ZERO_TIME && now < e'.w.store.codes[k].expiresAt
          && e'.w.store.codes[k].redirectURI == reply.base
          && Elements(e'.w.store.codes[k].scopes) == Listed(r.selected))
  }

  ghost predicate ReplyHolds(d: Deployment, e: Server, e': Server, i: nat, r: Request, now: Time, reply: Reply) {
    match reply
    case Tokens(t) => TokensHold(d, e, e', i, r, t, now)
    case Started(_, _, _, _) => StartHolds(d, e, e', i, r, reply)
    case SignedIn(token) => SignInHolds(e, e', i, r, token, now)
    case Redirected(_, _, _) => RedirectHolds(e, e', i, r, reply, now)
    case Done =>
      && r.Withdraw? && DigestCredential(r.presented) in e.w.past.grants
      && NewIdentifier(r.clientID) == Some(e.w.past.grants[DigestCredential(r.presented)].clientID)
      && Dead(e'.w, e.w.past.grants[DigestCredential(r.presented)].familyID)
    case _ => true
  }

  lemma OwnedIsDrawn(drawn: map<string, nat>, i: nat, raw: string)
    requires Owned(drawn, i, DigestCredential(raw))
    ensures raw in drawn && drawn[raw] == i
  {
  }

  /** The world and the books after a commit that went through. */
  lemma AfterCommit(d: Deployment, e: Server, step: Step)
    requires Committing(e, step) && Answer(d, e, step).Ok?
    ensures !step.fault
    ensures var l, after := e.pending[step.i], After(d, e, step);
            && after.w.store == Apply(e.w.store, CallOf(l.plan, step.pruneAt, step.now), d.config.statePolicy).0
            && after.w.past == Record(e.w.past, CallOf(l.plan, step.pruneAt, step.now))
            && after.ledger == Book(e.ledger, l.request, l.plan)
  {
    hide Apply, Record, Book, CallOf, Run;
    CommittedWorld(d, e, step);
  }

  lemma ExchangeHolds(d: Deployment, e: Server, step: Step)
    requires Committing(e, step) && Answer(d, e, step).Ok? && e.pending[step.i].plan.PlanExchange?
    requires PlanKnown(d, e.w.past, e.ledger.registered, e.drawn, step.i, e.pending[step.i].plan)
    requires PlanFits(d, e.w.past, e.ledger.registered, e.pending[step.i].request, e.pending[step.i].plan)
    ensures TokensHold(d, e, After(d, e, step), step.i, e.pending[step.i].request, e.pending[step.i].plan.response,
                       step.now)
  {
    hide Prune, CommitCodeExchange, ExchangeBound, NewIdentifier, TrimSpace, ValidVerifier, Owned, After, Record;
    AfterCommit(d, e, step);
    var plan := e.pending[step.i].plan;
    OwnedIsDrawn(e.drawn, step.i, plan.response.refreshToken);
    ExchangeAccepted(Prune(e.w.store, step.pruneAt), ExchangeCommit(plan.spent, Some(plan.grant)),
                     d.config.statePolicy, step.now);
  }

  lemma RotationHolds(d: Deployment, e: Server, step: Step)
    requires Committing(e, step) && Answer(d, e, step).Ok? && e.pending[step.i].plan.PlanRotate?
    requires PlanKnown(d, e.w.past, e.ledger.registered, e.drawn, step.i, e.pending[step.i].plan)
    requires PlanFits(d, e.w.past, e.ledger.registered, e.pending[step.i].request, e.pending[step.i].plan)
    ensures TokensHold(d, e, After(d, e, step), step.i, e.pending[step.i].request, e.pending[step.i].plan.response,
                       step.now)
  {
    hide Prune, CommitRefreshRotation, RotationFact, NewIdentifier, IsSubsetOf, Owned, After, Record;
    AfterCommit(d, e, step);
    var plan := e.pending[step.i].plan;
    OwnedIsDrawn(e.drawn, step.i, plan.response.refreshToken);
    RotationAccepted(Prune(e.w.store, step.pruneAt), plan.rotation, d.config.statePolicy, step.now);
  }

  lemma CreationHolds(d: Deployment, e: Server, step: Step)
    requires Committing(e, step) && Answer(d, e, step).Ok? && e.pending[step.i].plan.PlanBegin?
    requires PlanKnown(d, e.w.past, e.ledger.registered, e.drawn, step.i, e.pending[step.i].plan)
    requires PlanFits(d, e.w.past, e.ledger.registered, e.pending[step.i].request, e.pending[step.i].plan)
    ensures Returned(d, e, step).Started?
    ensures StartHolds(d, e, After(d, e, step), step.i, e.pending[step.i].request, Returned(d, e, step))
  {
    hide Prune, AuthFact, NewIdentifier, TrimSpace, Owned, After, Record, Listed, Elements;
    AfterCommit(d, e, step);
    OwnedIsDrawn(e.drawn, step.i, e.pending[step.i].plan.auth.token);
  }

  lemma SessionHolds(d: Deployment, e: Server, step: Step)
    requires Committing(e, step) && Answer(d, e, step).Ok? && e.pending[step.i].plan.PlanLogin?
    requires PlanKnown(d, e.w.past, e.ledger.registered, e.drawn, step.i, e.pending[step.i].plan)
    requires PlanFits(d, e.w.past, e.ledger.registered, e.pending[step.i].request, e.pending[step.i].plan)
    ensures SignInHolds(e, After(d, e, step), step.i, e.pending[step.i].request,
                        e.pending[step.i].plan.login.consent.token, step.now)
  {
    hide Prune, CommitLogin, LoginBound, Owned, After, Record, Elements;
    AfterCommit(d, e, step);
    var plan := e.pending[step.i].plan;
    OwnedIsDrawn(e.drawn, step.i, plan.login.consent.token);
    LoginAccepted(Prune(e.w.store, step.pruneAt), plan.login, d.config.statePolicy, step.now);
  }

  /** A recorded consent has the redirect URI and the state that the authorization request named. */
  lemma ConsentIsAsked(d: Deployment, past: Past, ledger: Ledger, k: CredentialDigest)
    requires k in past.consents && Booked(d, past, ledger)
    ensures var tx, c := past.consents[k].transaction, past.consents[k].session;
            && tx in ledger.requests && ledger.requests[tx].Authorize?
            && c.client.redirectURI == TrimSpace(ledger.requests[tx].input.redirectURI)
            && c.state == ledger.requests[tx].input.state
  {
    hide CodesBooked, GrantsBooked, IssuesBooked, AuthFact, TrimSpace, NewIdentifier, Elements, Listed;
    assert ConsentBooked(d, past.auths, ledger.registered, past.consents[k], ledger.requests[k]);
    assert Begins(d, ledger.requests[past.consents[k].transaction], past.auths[past.consents[k].transaction]);
  }

  lemma DecisionHolds(d: Deployment, e: Server, step: Step)
    requires Committing(e, step) && Answer(d, e, step).Ok? && e.pending[step.i].plan.PlanDecide?
    requires PlanKnown(d, e.w.past, e.ledger.registered, e.drawn, step.i, e.pending[step.i].plan)
    requires PlanFits(d, e.w.past, e.ledger.registered, e.pending[step.i].request, e.pending[step.i].plan)
    requires e.pending[step.i].plan.redirect.Redirected? && step.now > ZERO_TIME
    requires Booked(d, e.w.past, e.ledger)
    ensures RedirectHolds(e, After(d, e, step), step.i, e.pending[step.i].request, e.pending[step.i].plan.redirect,
                          step.now)
  {
    hide Prune, CommitConsent, ConsentBound, Owned, After, Booked, Elements, Listed, TrimSpace;
    AfterCommit(d, e, step);
    var plan := e.pending[step.i].plan;
    ConsentIsAsked(d, e.w.past, e.ledger, plan.decide.consent);
    if plan.redirect.rawCode.Some? {
      OwnedIsDrawn(e.drawn, step.i, plan.redirect.rawCode.value);
    }
    ConsentAccepted(Prune(e.w.store, step.pruneAt), plan.decide, d.config.statePolicy, step.now);
  }

  lemma WithdrawalHolds(d: Deployment, e: Server, step: Step)
    requires Committing(e, step) && !step.fault && e.pending[step.i].plan.PlanRevoke? && Possible(e, step)
    requires PlanKnown(d, e.w.past, e.ledger.registered, e.drawn, step.i, e.pending[step.i].plan)
    requires PlanFits(d, e.w.past, e.ledger.registered, e.pending[step.i].request, e.pending[step.i].plan)
    requires e.pending[step.i].plan.cause.Withdrawal?
    requires ServerInv(d, e)
    ensures ReplyHolds(d, e, After(d, e, step), step.i, e.pending[step.i].request, step.now, Done)
  {
    hide ServerInv, After, Dead, NewIdentifier, Possible;
    RevokePlanKills(d, e, step);
  }

  /**
   In every run, whatever a commit's caller is handed is there: the secret was drawn by its
   own call and names a record that is live in the store, that its request asked for, and
   that says what the reply says.
   */
  lemma RepliesHold(d: Deployment, e: Server, step: Step)
    requires Committing(e, step) && Possible(e, step)
    requires ServerInv(d, e)
    ensures ReplyHolds(d, e, After(d, e, step), step.i, e.pending[step.i].request, step.now, Returned(d, e, step))
  {
    hide ServerInv, Inv, SecretsStored, PlanKnown, PlanFits, Booked, Answer, After, Possible;
    hide TokensHold, StartHolds, SignInHolds, RedirectHolds, Dead;
    ServerParts(d, e);
    PlanIsKnown(d, e, step);
    NowIsSet(e.w, d.config.statePolicy);
    CommitAfterClock(e, step);
    var plan := e.pending[step.i].plan;
    if Answer(d, e, step).Ok? {
      AfterCommit(d, e, step);
      match plan
      case PlanBegin(_, _) => CreationHolds(d, e, step);
      case PlanLogin(_, _) => SessionHolds(d, e, step);
      case PlanDecide(_, redirect, _) =>
        if redirect.Redirected? {
          DecisionHolds(d, e, step);
        }
        RedirectsOrFails(d, e.w.past, e.ledger.registered, e.pending[step.i].request, plan);
      case PlanExchange(_, _, _) => ExchangeHolds(d, e, step);
      case PlanRotate(_, _) => RotationHolds(d, e, step);
      case PlanRevoke(_, _, cause) =>
        if cause.Withdrawal? {
          WithdrawalHolds(d, e, step);
        }
    }
  }

  lemma RedirectsOrFails(d: Deployment, past: Past, registered: map<ClientID, Client>, r: Request, plan: Plan)
    requires plan.PlanDecide? && PlanFits(d, past, registered, r, plan)
    ensures plan.redirect.Redirected? || plan.redirect.Failure?
  {
  }

  lemma CommitAfterClock(e: Server, step: Step)
    requires Committing(e, step) && Possible(e, step)
    ensures e.w.now <= step.pruneAt <= step.now
  {
  }

  /** Nothing is issued but what a caller is handed, at the very step that hands it over. */
  lemma OnlyRepliesIssue(d: Deployment, e: Server, step: Step)
    ensures After(d, e, step).ledger.issued
            == e.ledger.issued
               + if Committing(e, step) then Handed(e.pending[step.i].request, Returned(d, e, step)) else {}
  {
    hide Apply, Run, Prepare, Proceed, Draw, Keep, CallOf, Engine.MetadataAccepted, Engine.NewClient, Calls;
    if Committing(e, step) {
      CommittedWorld(d, e, step);
    }
  }

  // -------------------------------------------------------------------------
  // Over runs
  // -------------------------------------------------------------------------

  /**
   Every reply to a commit of every run is exactly the one stated, what it says is so, and
   only a reply with tokens issues anything.
   */
  lemma RepliesOfRuns(d: Deployment, now: Time, steps: seq<Step>, i: nat)
    requires now > ZERO_TIME && ValidPolicy(d.config.statePolicy) && ServerLegal(d, Boot(now), steps)
    requires i < |steps| && Committing(At(d, now, steps, i), steps[i])
    ensures var e, step := At(d, now, steps, i), steps[i];
            var l, reply := e.pending[step.i], Returned(d, e, step);
            && reply == Told(e.w.store, l.plan, d.config.statePolicy, step.pruneAt, step.now, step.fault)
            && ReplyHolds(d, e, At(d, now, steps, i + 1), step.i, l.request, step.now, reply)
            && At(d, now, steps, i + 1).ledger.issued == e.ledger.issued + Handed(l.request, reply)
  {
    hide ServerInv, Possible, At, After, ServerLegal, Returned, Told, ReplyHolds, Committing;
    ServerRunStep(d, now, steps, i);
    RepliesExactly(d, At(d, now, steps, i), steps[i]);
    RepliesHold(d, At(d, now, steps, i), steps[i]);
    OnlyRepliesIssue(d, At(d, now, steps, i), steps[i]);
  }

  /** The resource of a grant that was handed out is one that the server knows. */
  lemma IssuedResource(d: Deployment, e: Server, x: Issue)
    requires x in e.ledger.issued
    requires ServerInv(d, e)
    ensures DigestCredential(x.response.refreshToken) in e.w.past.grants
    ensures e.w.past.grants[DigestCredential(x.response.refreshToken)].resource in d.resources
  {
    hide ServerInv, Traced, Follows, HasFlow, Handover, Carried, ResponseFits, Requestable, Verifies;
    TokenIsTraced(d, e, x);
  }

  /**
   A token that was handed out can be used at once: its own client gets a successor planned
   whenever the identity provider vouches for the subject and the dependencies answer.
   */
  lemma TokenCanBeRefreshed(d: Deployment, now: Time, steps: seq<Step>, i: nat, clientID: string, a: RefreshAnswers)
    requires now > ZERO_TIME && ValidPolicy(d.config.statePolicy) && ServerLegal(d, Boot(now), steps)
    requires i < |steps| && Committing(At(d, now, steps, i), steps[i])
    requires Returned(d, At(d, now, steps, i), steps[i]).Tokens?
    requires var t := Returned(d, At(d, now, steps, i), steps[i]).response;
             && t.refreshToken != "" && NewIdentifier(clientID) == Some(t.access.clientID)
             && a.revalidation.Some? && a.revalidation.value.status == Eligible
             && a.revalidation.value.principal.subject == t.access.principal.subject != ""
             && a.available.Some? && a.issued && a.token.Some?
             && var rows := At(d, now, steps, i + 1).w.store.refresh;
             DigestCredential(t.refreshToken) in rows ==> a.now <= rows[DigestCredential(t.refreshToken)].expiresAt
    ensures var token := Returned(d, At(d, now, steps, i), steps[i]).response.refreshToken;
            Refresh(d, token, clientID,
                    Lookup(At(d, now, steps, i + 1).w.store.refresh, DigestCredential(token)), a).PlanRotate?
  {
    hide ServerInv, Possible, At, ServerLegal, Returned, NewIdentifier, Refresh, MadeBy, Told, SuccessorFits;
    RepliesOfRuns(d, now, steps, i);
    ServerRunStep(d, now, steps, i);
    var e', t := At(d, now, steps, i + 1), Returned(d, At(d, now, steps, i), steps[i]).response;
    IssuedResource(d, e', Issue(t, At(d, now, steps, i).pending[steps[i].i].request));
    StoredResource(d, e', DigestCredential(t.refreshToken));
    RefreshExactly(d, t.refreshToken, clientID, Lookup(e'.w.store.refresh, DigestCredential(t.refreshToken)), a);
  }

  lemma StoredResource(d: Deployment, e: Server, k: CredentialDigest)
    requires k in e.w.store.refresh && k in e.w.past.grants
    requires ServerInv(d, e)
    ensures e.w.store.refresh[k].resource == e.w.past.grants[k].resource
  {
    hide ServerInv, Inv;
    ServerParts(d, e);
    StoredRecord(e.w, k, d.config.statePolicy);
    assert e.w.store.refresh[k].(consumedAt := ZERO_TIME, revokedAt := ZERO_TIME).resource
           == e.w.past.grants[k].resource;
  }
}
