/**
 The engine over the memory store, whose commits read the clock twice, beside the same store
 calls on a SQLite store, whose commits read it once: exactly when the two part.
 */
module EngineStores {
  import opened Scopes
  import opened Model
  import opened Transitions
  import opened StoreSpec
  import opened StoreRuns
  import opened StoreSafety
  import opened FamilySafety
  import opened SqliteStore
  import opened Readings
  import opened StoreAgreement
  import opened Plans
  import opened Requests
  import opened Books
  import opened EngineRuns
  import opened EngineSafety
  import opened EngineDurable
  import Engine

  // -------------------------------------------------------------------------
  // Calls with secrets of their own
  // -------------------------------------------------------------------------

  /** What the call inserts has a key that no row has. */
  predicate NewKeys(s: State, call: Event) {
    match call
    case Register(client, _) => client.id !in s.clients
    case Login(commit, _, _) => DigestCredential(commit.consent.token) !in s.consents
    case Decide(commit, _, _) => commit.decision == Approve ==> commit.code.digest !in s.codes
    case Exchange(commit, _, _) =>
      commit.refresh.Some? ==>
        && commit.refresh.value.digest !in s.refresh
        && forall k | k in s.refresh :: s.refresh[k].familyID != commit.refresh.value.familyID
    case Rotate(rotation, _, _) => rotation.successor.digest !in s.refresh
    case _ => true
  }

  ghost predicate Proper(w: World, call: Event) {
    RecordUnspent(call) && NewKeys(w.store, call)
  }

  ghost predicate ProperRun(w: World, es: seq<Event>, policy: StatePolicy)
    decreases |es|
  {
    es == [] || (Proper(w, es[0]) && ProperRun(Next(w, es[0], policy), es[1..], policy))
  }

  lemma {:induction false} ProperAppend(w: World, a: seq<Event>, b: seq<Event>, policy: StatePolicy)
    requires ProperRun(w, a, policy) && ProperRun(Run(w, a, policy), b, policy)
    ensures ProperRun(w, a + b, policy)
    decreases |a|
  {
    hide Proper, Next;
    if a == [] {
      assert a + b == b;
    } else {
      assert (a + b)[0] == a[0] && (a + b)[1..] == a[1..] + b;
      ProperAppend(Next(w, a[0], policy), a[1..], b, policy);
    }
  }

  lemma {:induction false} ProperAt(w: World, es: seq<Event>, i: nat, policy: StatePolicy)
    requires ProperRun(w, es, policy) && i < |es|
    ensures Proper(Before(w, es, i, policy), es[i])
    decreases i
  {
    hide Proper, Next;
    if i > 0 {
      ProperAt(Next(w, es[0], policy), es[1..], i - 1, policy);
      assert es[..i][0] == es[0] && es[..i][1..] == es[1..][..i - 1];
    }
  }

  lemma FamiliesOfRows(w: World, policy: StatePolicy)
    requires Inv(w, policy)
    ensures forall k | k in w.store.refresh :: w.store.refresh[k].familyID in w.past.families
  {
    hide CredentialInv, FamiliesInv, WholeFamilies, Retained, ActiveGrants;
  }

  lemma PlansHaveNewKeys(d: Deployment, w: World, registered: map<ClientID, Client>, drawn: map<string, nat>,
                         pending: set<nat>, i: nat, plan: Plan, pruneAt: Time, now: Time)
    requires SecretsStored(w.past, drawn, pending) && i in pending
    requires PlanKnown(d, w.past, registered, drawn, i, plan)
    requires Inv(w, d.config.statePolicy)
    ensures NewKeys(w.store, CallOf(plan, pruneAt, now))
  {
    hide SecretsStored, Owned, AuthFact, RotationFact, Verifies, LoginBound, ConsentBound;
    hide ExchangeBound, Inv;
    KnownRows(w, d.config.statePolicy);
    FamiliesOfRows(w, d.config.statePolicy);
    match plan
    case PlanLogin(login, _) => PendingIsFresh(w.past, drawn, pending, i, DigestCredential(login.consent.token));
    case PlanDecide(decide, _, _) =>
      if decide.decision == Approve {
        PendingIsFresh(w.past, drawn, pending, i, decide.code.digest);
      }
    case PlanExchange(_, grant, _) =>
      PendingIsFresh(w.past, drawn, pending, i, grant.digest);
      PendingIsFresh(w.past, drawn, pending, i, DigestOf(grant.familyID));
    case PlanRotate(rotation, _) => PendingIsFresh(w.past, drawn, pending, i, rotation.successor.digest);
    case _ =>
  }

  lemma StepIsProper(d: Deployment, e: Server, step: Step)
    requires Possible(e, step)
    requires ServerInv(d, e)
    ensures ProperRun(e.w, Calls(d, e, step), d.config.statePolicy)
  {
    hide ServerInv, Inv, PlanKnown, SecretsStored, CallOf, Engine.MetadataAccepted, Next, RecordUnspent, Readable;
    ServerParts(d, e);
    if step.Finished? {
      PlanIsKnown(d, e, step);
      var plan := e.pending[step.i].plan;
      PlansAreUnspent(d, e.w.past, e.ledger.registered, e.drawn, step.i, plan, step.pruneAt, step.now);
      PlansHaveNewKeys(d, e.w, e.ledger.registered, e.drawn, e.pending.Keys, step.i, plan, step.pruneAt, step.now);
    } else if Calls(d, e, step) != [] {
      if step.Enroll? {
        FreshID(d, e, step.id);
      }
      OtherRecords(d, e, step);
    }
  }

  lemma NothingIsProper(w: World, policy: StatePolicy)
    ensures ProperRun(w, [], policy)
  {
  }

  lemma {:induction false} ServerRunIsProper(d: Deployment, e: Server, steps: seq<Step>)
    requires ServerLegal(d, e, steps) && ValidPolicy(d.config.statePolicy)
    requires ServerInv(d, e)
    ensures ProperRun(e.w, AllCalls(d, e, steps), d.config.statePolicy)
    decreases |steps|
  {
    hide ServerInv, Possible, After, Calls, ProperRun, Run;
    if steps == [] {
      NothingIsProper(e.w, d.config.statePolicy);
    } else {
      StepIsProper(d, e, steps[0]);
      AfterWorld(d, e, steps[0]);
      ServerStepKeeps(d, e, steps[0]);
      ServerRunIsProper(d, After(d, e, steps[0]), steps[1..]);
      ProperAppend(e.w, Calls(d, e, steps[0]), AllCalls(d, After(d, e, steps[0]), steps[1..]), d.config.statePolicy);
    }
  }

  // -------------------------------------------------------------------------
  // Crowded commits
  // -------------------------------------------------------------------------

  /** Full at the first reading, and room at the second. */
  ghost predicate MakesRoom(p: State, e: Event, policy: StatePolicy) {
    var limits := policy.capacity;
    match e
    case Login(_, _, now) => |Prune(p, now).consents| < limits.maxConsents <= |p.consents|
    case Decide(commit, _, now) =>
      commit.decision == Approve && |Prune(p, now).codes| < limits.maxCodes <= |p.codes|
    case Exchange(_, _, now) =>
      |ActiveGrants(Prune(p, now).refresh)| < limits.maxRefreshGrants <= |ActiveGrants(p.refresh)|
    case _ => false
  }

  /** The record to be spent is in order at the second reading. */
  ghost predicate InOrderAt(p: State, e: Event) {
    match e
    case Login(commit, _, now) =>
      commit.transaction in p.authorizations
      && ValidateLoginCommit(p.authorizations[commit.transaction], commit.consent, now) == Ok
    case Decide(commit, _, now) =>
      commit.consent in p.consents && ValidateConsentCommit(p.consents[commit.consent], commit, now) == Ok
    case Exchange(commit, _, now) =>
      commit.code in p.codes && ValidateCodeExchangeCommit(p.codes[commit.code], commit, now) == Ok
    case _ => false
  }

  /** A commit in order that is refused for room which rows running out meanwhile would have made. */
  ghost predicate Crowded(s: State, e: Event, policy: StatePolicy) {
    ReadsTwice(e) && InOrderAt(Prune(s, e.pruneAt), e) && MakesRoom(Prune(s, e.pruneAt), e, policy)
  }

  lemma ExchangeBrings(code: Code, commit: ExchangeCommit, now: Time)
    requires ValidateCodeExchangeCommit(code, commit, now) == Ok
    ensures commit.refresh.Some?
  {
    hide Text;
  }

  /** With secrets of its own, a call parts the stores only for room. */
  lemma PartsWhenCrowded(w: World, e: Event, policy: StatePolicy)
    requires Proper(w, e)
    ensures Diverges(w.store, e, policy) <==> Crowded(w.store, e, policy)
  {
    hide Prune, ValidateLoginCommit, ValidateConsentCommit, ValidateCodeExchangeCommit, ValidateRefreshRotation;
    hide ActiveGrants, Evictable, RecordUnspent;
    if ReadsTwice(e) {
      var p := Prune(w.store, e.pruneAt);
      PruneKeepsRowsOf(w.store, e.pruneAt);
      PruneKeepsRowsOf(p, e.now);
      if e.Exchange? && InOrderAt(p, e) {
        ExchangeBrings(p.codes[e.exchange.code], e.exchange, e.now);
      }
    }
  }

  // -------------------------------------------------------------------------
  // Answers and replies
  // -------------------------------------------------------------------------

  /** What a caller can tell of an answer: success, or the failure that the engine makes of the refusal. */
  predicate SameReply(a: Outcome, b: Outcome) {
    (a.Ok? <==> b.Ok?) && (a.Err? ==> forall code :: MapStoreError(a.error, code) == MapStoreError(b.error, code))
  }

  lemma LoginReplies(p: State, commit: LoginCommit, policy: StatePolicy, now: Time)
    requires DigestCredential(commit.consent.token) !in p.consents
    ensures SameReply(CommitLogin(p, commit, policy, now).1, CommitLogin(Prune(p, now), commit, policy, now).1)
            <==> !(InOrderAt(p, Login(commit, now, now)) && MakesRoom(p, Login(commit, now, now), policy))
  {
    hide Prune, ValidateLoginCommit;
    FewerRows(p, now);
    if commit.transaction in p.authorizations {
      ExpiredLogin(p, commit, now);
    }
  }

  lemma ExpiredLogin(p: State, commit: LoginCommit, now: Time)
    requires commit.transaction in p.authorizations
    ensures var row, q := p.authorizations[commit.transaction], Prune(p, now).authorizations;
            if commit.transaction in q then q[commit.transaction] == row
            else ValidateLoginCommit(row, commit.consent, now) in {Err(Consumed), Err(Expired)}
  {
    hide IsSubsetOf;
  }

  lemma DecisionReplies(p: State, commit: ConsentCommit, policy: StatePolicy, now: Time)
    requires commit.decision == Approve ==> commit.code.digest !in p.codes
    ensures SameReply(CommitConsent(p, commit, policy, now).1, CommitConsent(Prune(p, now), commit, policy, now).1)
            <==> !(InOrderAt(p, Decide(commit, now, now)) && MakesRoom(p, Decide(commit, now, now), policy))
  {
    hide Prune, ValidateConsentCommit;
    FewerRows(p, now);
    if commit.consent in p.consents {
      ExpiredDecision(p, commit, now);
    }
  }

  lemma ExpiredDecision(p: State, commit: ConsentCommit, now: Time)
    requires commit.consent in p.consents
    ensures var row, q := p.consents[commit.consent], Prune(p, now).consents;
            if commit.consent in q then q[commit.consent] == row
            else ValidateConsentCommit(row, commit, now) in {Err(Consumed), Err(Expired)}
    ensures ValidateConsentCommit(p.consents[commit.consent], commit, now) == Ok && commit.decision != Approve ==>
              commit.decision == Deny
  {
    hide IsSubsetOf;
  }

  lemma ExchangeReplies(p: State, commit: ExchangeCommit, policy: StatePolicy, now: Time)
    requires commit.refresh.Some? ==> commit.refresh.value.digest !in p.refresh
    ensures SameReply(CommitCodeExchange(p, commit, policy, now).1,
                      CommitCodeExchange(Prune(p, now), commit, policy, now).1)
            <==> !(InOrderAt(p, Exchange(commit, now, now)) && MakesRoom(p, Exchange(commit, now, now), policy))
  {
    hide Prune, ValidateCodeExchangeCommit, ActiveGrants;
    FewerRows(p, now);
    if commit.code in p.codes {
      ExpiredExchange(p, commit, now);
    }
  }

  lemma ExpiredExchange(p: State, commit: ExchangeCommit, now: Time)
    requires commit.code in p.codes
    ensures var row, q := p.codes[commit.code], Prune(p, now).codes;
            if commit.code in q then q[commit.code] == row
            else ValidateCodeExchangeCommit(row, commit, now) in {Err(Consumed), Err(Expired)}
    ensures ValidateCodeExchangeCommit(p.codes[commit.code], commit, now) == Ok ==> commit.refresh.Some?
  {
    hide Text;
  }

  lemma RotationReplies(p: State, rotation: Rotation, policy: StatePolicy, now: Time)
    requires rotation.successor.digest !in p.refresh
    ensures SameReply(CommitRefreshRotation(p, rotation, policy, now).1,
                      CommitRefreshRotation(Prune(p, now), rotation, policy, now).1)
  {
    hide Prune, ValidateRefreshRotation, RevokeFamily;
    FewerRows(p, now);
    if rotation.current in p.refresh {
      ExpiredRotation(p, rotation, now);
    }
  }

  lemma ExpiredRotation(p: State, rotation: Rotation, now: Time)
    requires rotation.current in p.refresh
    ensures var row, q := p.refresh[rotation.current], Prune(p, now).refresh;
            if rotation.current in q then q[rotation.current] == row
            else ValidateRefreshRotation(row, rotation, now)
                 in {Err(Binding), Err(Revoked), Err(Consumed), Err(Expired)}
  {
    hide IsSubsetOf;
  }

  /** A caller cannot tell one reading from two, unless rows that run out in between make room. */
  lemma RepliesWhenRoom(s: State, e: Event, policy: StatePolicy)
    requires NewKeys(s, e) && (ReadsTwice(e) ==> e.pruneAt <= e.now)
    ensures SameReply(Apply(s, e, policy).1, Apply(s, AtOnce(e), policy).1) <==> !Crowded(s, e, policy)
  {
    hide Prune, CommitLogin, CommitConsent, CommitCodeExchange, CommitRefreshRotation;
    match e
    case Login(commit, t, now) =>
      PruneAbsorbs(s, t, now);
      PruneKeepsRowsOf(s, t);
      LoginReplies(Prune(s, t), commit, policy, now);
    case Decide(commit, t, now) =>
      PruneAbsorbs(s, t, now);
      PruneKeepsRowsOf(s, t);
      DecisionReplies(Prune(s, t), commit, policy, now);
    case Exchange(commit, t, now) =>
      PruneAbsorbs(s, t, now);
      PruneKeepsRowsOf(s, t);
      ExchangeReplies(Prune(s, t), commit, policy, now);
    case Rotate(rotation, t, now) =>
      PruneAbsorbs(s, t, now);
      PruneKeepsRowsOf(s, t);
      RotationReplies(Prune(s, t), rotation, policy, now);
    case _ =>
  }

  // -------------------------------------------------------------------------
  // Whole runs
  // -------------------------------------------------------------------------

  /** The worlds of a run of the store, one before each call and one at the end. */
  ghost function Worlds(now: Time, es: seq<Event>, policy: StatePolicy): (ws: seq<World>)
    ensures |ws| == |es| + 1
    ensures forall i | 0 <= i <= |es| :: ws[i] == Before(Start(now), es, i, policy)
  {
    seq(|es| + 1, i requires 0 <= i <= |es| => Before(Start(now), es, i, policy))
  }

  ghost function StatesOf(ws: seq<World>): (ms: seq<State>)
    ensures |ms| == |ws| && forall i | 0 <= i < |ws| :: ms[i] == ws[i].store
  {
    seq(|ws|, i requires 0 <= i < |ws| => ws[i].store)
  }

  ghost function ClocksAlong(ws: seq<World>): (clocks: seq<Time>)
    ensures |clocks| == |ws| && forall i | 0 <= i < |ws| :: clocks[i] == ws[i].now
  {
    seq(|ws|, i requires 0 <= i < |ws| => ws[i].now)
  }

  ghost function OutcomesOf(ws: seq<World>, es: seq<Event>, policy: StatePolicy): (rs: seq<Outcome>)
    requires |ws| == |es| + 1
    ensures |rs| == |es| && forall i | 0 <= i < |es| :: rs[i] == Apply(ws[i].store, es[i], policy).1
  {
    seq(|es|, i requires 0 <= i < |es| => Apply(ws[i].store, es[i], policy).1)
  }

  lemma OneCallOn(now: Time, es: seq<Event>, i: nat, policy: StatePolicy)
    requires Legal(Start(now), es, policy) && i < |es|
    ensures var w, w' := Before(Start(now), es, i, policy), Before(Start(now), es, i + 1, policy);
            && w.now <= w'.now && w'.now == TimeAfter(es[i], w.now)
            && Apply(w.store, es[i], policy) == (w'.store, Apply(w.store, es[i], policy).1)
            && (ReadsTwice(es[i]) ==> es[i].pruneAt <= es[i].now)
  {
    hide Apply, Record, Before, Start, Legal;
    RunStep(Start(now), es, i, policy);
  }

  lemma StartsEmpty(now: Time, es: seq<Event>, policy: StatePolicy)
    ensures Before(Start(now), es, 0, policy).store == EMPTY && Before(Start(now), es, 0, policy).now == now
    ensures Boot(now).w == Start(now)
  {
  }

  lemma EndsAt(now: Time, es: seq<Event>, policy: StatePolicy)
    ensures Before(Start(now), es, |es|, policy) == Run(Start(now), es, policy)
  {
    assert es[..|es|] == es;
  }

  /** The tables' answer is what the memory store would answer at its second reading. */
  lemma AnswersAtOnce(ms: seq<State>, ts: seq<Tables>, mrs: seq<Outcome>, trs: seq<Outcome>,
                      es: seq<Event>, clocks: seq<Time>, policy: StatePolicy, m: nat)
    requires SideBySide(ms, ts, mrs, trs, es, clocks, policy) && m < |es|
    requires Agree(ms[m], View(ts[m]), clocks[m])
    ensures trs[m] == Apply(ms[m], AtOnce(es[m]), policy).1
  {
    hide Performs, Writes, Apply, Sound, Exact, RecordUnspent, Timed, RecordTimed, InsertedUnspent, Agree;
    hide AnswersDiffer, Diverges;
    ComparableUpTo(ms, ts, mrs, trs, es, clocks, policy, m);
    assert clocks[m + 1] == TimeAfter(es[m], clocks[m]);
    assert DurableCall(ts[m], ts[m + 1], trs[m], es[m], policy);
    var once := AtOnce(es[m]);
    OneReadingSuffices(ts[m], ts[m + 1], trs[m], es[m], policy);
    TwoReadings(ms[m], once, policy);
    StepAgrees(ms[m], ts[m], ts[m + 1], trs[m], once, policy, clocks[m]);
  }

  /** The store calls of a server run, made on a SQLite store as well, whose texts compare in order. */
  ghost predicate Alongside(d: Deployment, now: Time, steps: seq<Step>, ts: seq<Tables>, rs: seq<Outcome>) {
    var es, policy := AllCalls(d, Boot(now), steps), d.config.statePolicy;
    && DurableTrace(ts, rs, es, policy) && ts[0] == NO_ROWS
    && ExactAlong(es, ClocksAlong(Worlds(now, es, policy)), policy.registration)
  }

  lemma AlongsideIsSideBySide(d: Deployment, now: Time, steps: seq<Step>, ts: seq<Tables>, rs: seq<Outcome>)
    requires now > ZERO_TIME && ValidPolicy(d.config.statePolicy) && ServerLegal(d, Boot(now), steps)
    requires Alongside(d, now, steps, ts, rs)
    ensures var es, policy := AllCalls(d, Boot(now), steps), d.config.statePolicy;
            var ws := Worlds(now, es, policy);
            && SideBySide(StatesOf(ws), ts, OutcomesOf(ws, es, policy), rs, es, ClocksAlong(ws), policy)
            && (forall i | 0 <= i < |es| :: Proper(ws[i], es[i]) && (ReadsTwice(es[i]) ==> es[i].pruneAt <= es[i].now))
            && ws[|es|] == ServerRun(d, Boot(now), steps).w
  {
    hide ServerInv, ServerLegal, ServerRun, AllCalls, Legal, Before, Start, DurableCall, Exact, Apply;
    hide RecordUnspent, NewKeys, ProperRun, RecordTimed;
    var es, policy := AllCalls(d, Boot(now), steps), d.config.statePolicy;
    var ws := Worlds(now, es, policy);
    EngineIsLegal(d, now, steps);
    BootHolds(d, now);
    ServerRunIsProper(d, Boot(now), steps);
    forall i | 0 <= i < |es|
      ensures ws[i].now <= ws[i + 1].now && ws[i + 1].now == TimeAfter(es[i], ws[i].now)
      ensures Apply(ws[i].store, es[i], policy) == (ws[i + 1].store, OutcomesOf(ws, es, policy)[i])
      ensures Proper(ws[i], es[i]) && (ReadsTwice(es[i]) ==> es[i].pruneAt <= es[i].now)
    {
      OneCallOn(now, es, i, policy);
      ProperAt(Start(now), es, i, policy);
    }
    StartsEmpty(now, es, policy);
    EndsAt(now, es, policy);
  }

  /**
   The engine over the memory store, and the same calls on SQLite: the stores agree before
   and after every call exactly when no call is crowded. Then the caller of the engine can
   tell no answer of the one store from that of the other.
   */
  lemma EngineStoresAgree(d: Deployment, now: Time, steps: seq<Step>, ts: seq<Tables>, rs: seq<Outcome>)
    requires now > ZERO_TIME && ValidPolicy(d.config.statePolicy) && ServerLegal(d, Boot(now), steps)
    requires Alongside(d, now, steps, ts, rs)
    ensures var es, policy := AllCalls(d, Boot(now), steps), d.config.statePolicy;
            var ws := Worlds(now, es, policy);
            && ws[|es|] == ServerRun(d, Boot(now), steps).w
            && ((forall i | 0 <= i <= |es| :: Agree(ws[i].store, View(ts[i]), ws[i].now))
                <==> (forall i | 0 <= i < |es| :: !Crowded(ws[i].store, es[i], policy)))
            && ((forall i | 0 <= i < |es| :: !Crowded(ws[i].store, es[i], policy)) ==>
                  forall i | 0 <= i < |es| :: SameReply(Apply(ws[i].store, es[i], policy).1, rs[i]))
  {
    hide ServerInv, ServerLegal, ServerRun, AllCalls, Legal, Before, Start, DurableCall, Exact, Apply, SideBySide;
    hide RecordUnspent, NewKeys, Agree, Crowded, Diverges, AnswersDiffer, SameReply, Alongside, View, Proper;
    var es, policy := AllCalls(d, Boot(now), steps), d.config.statePolicy;
    var ws := Worlds(now, es, policy);
    var ms, clocks, mrs := StatesOf(ws), ClocksAlong(ws), OutcomesOf(ws, es, policy);
    AlongsideIsSideBySide(d, now, steps, ts, rs);
    StoresAgree(ms, ts, mrs, rs, es, clocks, policy);
    forall i | 0 <= i < |es|
      ensures Diverges(ms[i], es[i], policy) <==> Crowded(ws[i].store, es[i], policy)
    {
      PartsWhenCrowded(ws[i], es[i], policy);
    }
    if forall i | 0 <= i < |es| :: !Crowded(ws[i].store, es[i], policy) {
      forall i | 0 <= i < |es|
        ensures SameReply(Apply(ws[i].store, es[i], policy).1, rs[i])
      {
        ProperHasNewKeys(ws[i], es[i]);
        AnswersAtOnce(ms, ts, mrs, rs, es, clocks, policy, i);
        RepliesWhenRoom(ws[i].store, es[i], policy);
      }
    }
  }

  /** Then a family that is dead in the server has no live, active row in the tables either. */
  lemma DeadOnSqlite(d: Deployment, now: Time, steps: seq<Step>, ts: seq<Tables>, rs: seq<Outcome>,
                     family: RefreshFamilyID)
    requires now > ZERO_TIME && ValidPolicy(d.config.statePolicy) && ServerLegal(d, Boot(now), steps)
    requires Alongside(d, now, steps, ts, rs)
    requires var es, policy := AllCalls(d, Boot(now), steps), d.config.statePolicy;
             forall i | 0 <= i < |es| :: !Crowded(Worlds(now, es, policy)[i].store, es[i], policy)
    requires Dead(ServerRun(d, Boot(now), steps).w, family)
    ensures NoneActive(View(ts[|AllCalls(d, Boot(now), steps)|]).refresh, family,
                       ServerRun(d, Boot(now), steps).w.now)
  {
    hide ServerLegal, ServerRun, AllCalls, Before, Start, DurableCall, Apply, Crowded, Agree, Dead, View, NoneActive;
    hide SameReply, ExactAlong;
    EngineStoresAgree(d, now, steps, ts, rs);
    DeadInBoth(ServerRun(d, Boot(now), steps).w, View(ts[|AllCalls(d, Boot(now), steps)|]), family);
  }

  lemma ProperHasNewKeys(w: World, call: Event)
    requires Proper(w, call)
    ensures NewKeys(w.store, call)
  {
  }

  // -------------------------------------------------------------------------
  // Reads
  // -------------------------------------------------------------------------

  /** What a call sets out to do when both of its reads see the state. */
  function Outlook(d: Deployment, s: State, r: Request): Option<Plan> {
    match r
    case Authorize(input, token, at) =>
      var clientID := NewIdentifier(input.clientID);
      Some(Begin(d, input, if clientID.Some? then Lookup(s.clients, clientID.value) else None, token, at))
    case LogIn(presented, principal, a) =>
      var auth := Lookup(s.authorizations, DigestCredential(presented));
      var client := if auth.Some? then Lookup(s.clients, auth.value.clientID) else None;
      Some(CompleteLogin(d, presented, principal, auth, client, a))
    case Resolve(presented, decision, selected, a) =>
      Some(DecideConsent(d, presented, decision, selected, Lookup(s.consents, DigestCredential(presented)), a))
    case Redeem(input, a) => Some(ExchangeCode(d, input, BoundCode(d, s.codes, input), a))
    case Renew(presented, clientID, a) =>
      Some(Refresh(d, presented, clientID, Lookup(s.refresh, DigestCredential(presented)), a))
    case Withdraw(presented, clientID, at) =>
      Plans.Revoke(presented, clientID, Lookup(s.refresh, DigestCredential(presented)), at)
  }

  /** When the record that a request presents runs out, if it is stored. */
  function RunsOut(s: State, r: Request): Option<Time> {
    match r
    case Authorize(_, _, _) => None
    case LogIn(presented, _, _) =>
      var k := DigestCredential(presented); if k in s.authorizations then Some(s.authorizations[k].expiresAt) else None
    case Resolve(presented, _, _, _) =>
      var k := DigestCredential(presented); if k in s.consents then Some(s.consents[k].expiresAt) else None
    case Redeem(input, _) =>
      var k := DigestCredential(input.code); if k in s.codes then Some(s.codes[k].expiresAt) else None
    case Renew(presented, _, _) =>
      var k := DigestCredential(presented); if k in s.refresh then Some(s.refresh[k].expiresAt) else None
    case Withdraw(presented, _, _) =>
      var k := DigestCredential(presented); if k in s.refresh then Some(s.refresh[k].expiresAt) else None
  }

  predicate RanOut(s: State, r: Request, now: Time) {
    RunsOut(s, r).Some? && RunsOut(s, r).value <= now
  }

  /** The reading with which a call compares that. */
  function CheckedAt(r: Request): Time {
    match r
    case LogIn(_, _, a) => a.checkedAt
    case Resolve(_, _, _, a) => a.checkedAt
    case Redeem(_, a) => a.checkedAt
    case _ => Reading(r)
  }

  /** If the row is live in one table, it is the same in the other. */
  ghost predicate SameLive<V>(a: map<CredentialDigest, V>, b: map<CredentialDigest, V>, live: V -> bool,
                              k: CredentialDigest)
  {
    if k in a && live(a[k]) then k in b && b[k] == a[k] else !(k in b && live(b[k]))
  }

  lemma AuthorizationsAgree(memory: State, durable: State, now: Time, k: CredentialDigest)
    requires Agree(memory, durable, now)
    ensures SameLive(BlankAuthorizations(memory.authorizations), durable.authorizations,
                     (a: Authorization) => a.expiresAt > now, k)
  {
    hide PruneCodes, PruneConsents, PruneRefresh, BlankConsents;
    assert k in PruneAuthorizations(BlankAuthorizations(memory.authorizations), now)
           <==> k in PruneAuthorizations(durable.authorizations, now);
  }

  lemma ConsentsAgree(memory: State, durable: State, now: Time, k: CredentialDigest)
    requires Agree(memory, durable, now)
    ensures SameLive(BlankConsents(memory.consents), durable.consents, (c: Consent) => c.expiresAt > now, k)
  {
    hide PruneCodes, PruneAuthorizations, PruneRefresh, BlankAuthorizations;
    assert k in PruneConsents(BlankConsents(memory.consents), now) <==> k in PruneConsents(durable.consents, now);
  }

  lemma CodesAgree(memory: State, durable: State, now: Time, k: CredentialDigest)
    requires Agree(memory, durable, now)
    ensures SameLive(memory.codes, durable.codes, (c: Code) => c.expiresAt > now, k)
  {
    hide PruneAuthorizations, PruneConsents, PruneRefresh, BlankAuthorizations, BlankConsents;
    assert k in PruneCodes(memory.codes, now) <==> k in PruneCodes(durable.codes, now);
  }

  lemma GrantsAgree(memory: State, durable: State, now: Time, k: CredentialDigest)
    requires Agree(memory, durable, now)
    ensures SameLive(memory.refresh, durable.refresh, (g: Grant) => g.expiresAt > now, k)
  {
    hide PruneAuthorizations, PruneConsents, PruneCodes, BlankAuthorizations, BlankConsents;
    if k in memory.refresh && memory.refresh[k].expiresAt > now {
      assert FamilyLive(memory.refresh, memory.refresh[k].familyID, now);
      assert k in PruneRefresh(memory.refresh, now);
    }
    if k in durable.refresh && durable.refresh[k].expiresAt > now {
      assert FamilyLive(durable.refresh, durable.refresh[k].familyID, now);
      assert k in PruneRefresh(durable.refresh, now);
    }
  }

  /** A record that has run out is refused like one that is not stored, and a stored token plays no part. */
  lemma LoginPlans(d: Deployment, r: Request, auth: Authorization, client: Option<Client>)
    requires r.LogIn?
    ensures auth.expiresAt < CheckedAt(r) ==>
              CompleteLogin(d, r.presented, r.principal, Some(auth), client, r.login)
              == CompleteLogin(d, r.presented, r.principal, None, None, r.login)
    ensures CompleteLogin(d, r.presented, r.principal, Some(auth.(token := "")), client, r.login)
            == CompleteLogin(d, r.presented, r.principal, Some(auth), client, r.login)
  {
    hide NewIdentifier, Intersection;
  }

  lemma DecisionPlans(d: Deployment, r: Request, consent: Consent)
    requires r.Resolve?
    ensures consent.expiresAt < CheckedAt(r) ==>
              DecideConsent(d, r.presented, r.decision, r.selected, Some(consent), r.consent)
              == DecideConsent(d, r.presented, r.decision, r.selected, None, r.consent)
    ensures DecideConsent(d, r.presented, r.decision, r.selected, Some(consent.(token := "")), r.consent)
            == DecideConsent(d, r.presented, r.decision, r.selected, Some(consent), r.consent)
  {
    hide FromValues, IsSubsetOf;
  }

  lemma ExpiredRefresh(d: Deployment, r: Request, g: Grant)
    requires r.Renew? && g.expiresAt < CheckedAt(r)
    ensures Refresh(d, r.presented, r.clientID, Some(g), r.renewal)
            == Refresh(d, r.presented, r.clientID, None, r.renewal)
  {
    hide NewIdentifier, Intersection;
  }

  lemma ExpiredCode(d: Deployment, codes: Codes, input: ExchangeInput, a: ExchangeAnswers)
    requires DigestCredential(input.code) in codes ==> codes[DigestCredential(input.code)].expiresAt < a.checkedAt
    ensures ExchangeCode(d, input, BoundCode(d, codes, input), a) == Refuse(InvalidGrant)
  {
    hide NewIdentifier, NewURLIdentifier, ExchangeWellFormed;
  }

  lemma LoginsAgree(d: Deployment, memory: State, durable: State, now: Time, r: Request)
    requires r.LogIn? && Agree(memory, durable, now) && now <= CheckedAt(r)
    requires RunsOut(memory, r) != Some(CheckedAt(r)) && RunsOut(durable, r) != Some(CheckedAt(r))
    ensures Outlook(d, durable, r) == Outlook(d, memory, r)
  {
    hide Agree, CompleteLogin;
    var k := DigestCredential(r.presented);
    AuthorizationsAgree(memory, durable, now, k);
    AgreeSameClients(memory, durable, now);
    forall auth: Authorization, client: Option<Client>
      ensures auth.expiresAt < CheckedAt(r) ==>
                CompleteLogin(d, r.presented, r.principal, Some(auth), client, r.login)
                == CompleteLogin(d, r.presented, r.principal, None, None, r.login)
      ensures CompleteLogin(d, r.presented, r.principal, Some(auth.(token := "")), client, r.login)
              == CompleteLogin(d, r.presented, r.principal, Some(auth), client, r.login)
    {
      LoginPlans(d, r, auth, client);
    }
  }

  lemma DecisionsAgree(d: Deployment, memory: State, durable: State, now: Time, r: Request)
    requires r.Resolve? && Agree(memory, durable, now) && now <= CheckedAt(r)
    requires RunsOut(memory, r) != Some(CheckedAt(r)) && RunsOut(durable, r) != Some(CheckedAt(r))
    ensures Outlook(d, durable, r) == Outlook(d, memory, r)
  {
    hide Agree, DecideConsent;
    var k := DigestCredential(r.presented);
    ConsentsAgree(memory, durable, now, k);
    forall consent: Consent
      ensures consent.expiresAt < CheckedAt(r) ==>
                DecideConsent(d, r.presented, r.decision, r.selected, Some(consent), r.consent)
                == DecideConsent(d, r.presented, r.decision, r.selected, None, r.consent)
      ensures DecideConsent(d, r.presented, r.decision, r.selected, Some(consent.(token := "")), r.consent)
              == DecideConsent(d, r.presented, r.decision, r.selected, Some(consent), r.consent)
    {
      DecisionPlans(d, r, consent);
    }
  }

  /**
   From agreeing stores a call sets out to do the same, or is refused with the same error,
   whichever of them it reads, unless its record runs out at the very instant it is checked.
   Only a withdrawal does not check, and may find an expired grant in one store alone.
   */
  lemma ReadsAgree(d: Deployment, memory: State, durable: State, now: Time, r: Request)
    requires Agree(memory, durable, now) && now <= CheckedAt(r)
    requires RunsOut(memory, r) != Some(CheckedAt(r)) && RunsOut(durable, r) != Some(CheckedAt(r))
    ensures Outlook(d, durable, r) == Outlook(d, memory, r)
            || (r.Withdraw? && (RanOut(memory, r, now) || RanOut(durable, r, now)))
  {
    hide Agree, Begin, CompleteLogin, DecideConsent, ExchangeCode, Refresh, Plans.Revoke, NewIdentifier, BoundCode;
    match r
    case Authorize(_, _, _) => AgreeSameClients(memory, durable, now);
    case LogIn(_, _, _) => LoginsAgree(d, memory, durable, now, r);
    case Resolve(_, _, _, _) => DecisionsAgree(d, memory, durable, now, r);
    case Redeem(input, a) =>
      var k := DigestCredential(input.code);
      CodesAgree(memory, durable, now, k);
      BoundToRow(d, memory.codes, durable.codes, input);
      if k !in memory.codes || memory.codes[k].expiresAt <= now {
        ExpiredCode(d, memory.codes, input, a);
        ExpiredCode(d, durable.codes, input, a);
      }
    case Renew(presented, clientID, a) =>
      var k := DigestCredential(presented);
      GrantsAgree(memory, durable, now, k);
      if k in memory.refresh && memory.refresh[k].expiresAt <= now {
        ExpiredRefresh(d, r, memory.refresh[k]);
      }
      if k in durable.refresh && durable.refresh[k].expiresAt <= now {
        ExpiredRefresh(d, r, durable.refresh[k]);
      }
    case Withdraw(presented, _, _) => GrantsAgree(memory, durable, now, DigestCredential(presented));
  }

  lemma BoundToRow(d: Deployment, a: Codes, b: Codes, input: ExchangeInput)
    ensures var k := DigestCredential(input.code);
            k in a && k in b && a[k] == b[k] ==> BoundCode(d, a, input) == BoundCode(d, b, input)
  {
    hide NewIdentifier, NewURLIdentifier;
  }
}
