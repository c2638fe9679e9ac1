/**
 What the engine guarantees over every run of the server, however its calls interleave:
 its steps are legal store calls, every token traces back to one authorization and one
 matching verifier with authority that only narrowed, lifetimes are bounded, replay kills
 the family, and the engine's own records are never refused as malformed.
 */
module EngineSafety {
  import opened Scopes
  import opened Model
  import opened Transitions
  import opened StoreSpec
  import opened StoreRuns
  import opened StoreSafety
  import opened FamilySafety
  import opened Config
  import opened SqliteStore
  import opened Readings
  import opened Plans
  import opened Requests
  import opened Books
  import opened EngineRuns
  import Engine

  // -------------------------------------------------------------------------
  // A run of the server is a run of the store
  // -------------------------------------------------------------------------

  lemma {:induction false} RunsAppend(w: World, a: seq<Event>, b: seq<Event>, policy: StatePolicy)
    requires Legal(w, a, policy) && Legal(Run(w, a, policy), b, policy)
    ensures Legal(w, a + b, policy) && Run(w, a + b, policy) == Run(Run(w, a, policy), b, policy)
    decreases |a|
  {
    hide Enabled, Next;
    if a == [] {
      assert a + b == b;
    } else {
      assert (a + b)[0] == a[0] && (a + b)[1..] == a[1..] + b;
      RunsAppend(Next(w, a[0], policy), a[1..], b, policy);
    }
  }

  lemma AfterWorld(d: Deployment, e: Server, step: Step)
    ensures After(d, e, step).w == Run(e.w, Calls(d, e, step), d.config.statePolicy)
  {
    hide Next, Book, Keep, Draw, CallOf, Answer, Apply;
    NoCalls(e.w, d.config.statePolicy);
  }

  lemma {:induction false} ServerRunIsStoreRun(d: Deployment, e: Server, steps: seq<Step>)
    requires ServerInv(d, e) && ServerLegal(d, e, steps) && ValidPolicy(d.config.statePolicy)
    ensures Legal(e.w, AllCalls(d, e, steps), d.config.statePolicy)
    ensures ServerRun(d, e, steps).w == Run(e.w, AllCalls(d, e, steps), d.config.statePolicy)
    decreases |steps|
  {
    hide ServerInv, Possible, After, Calls, Legal, Run;
    var policy := d.config.statePolicy;
    if steps == [] {
      NoCalls(e.w, policy);
    } else {
      CallsAreLegal(d, e, steps[0]);
      AfterWorld(d, e, steps[0]);
      ServerStepKeeps(d, e, steps[0]);
      ServerRunIsStoreRun(d, After(d, e, steps[0]), steps[1..]);
      RunsAppend(e.w, Calls(d, e, steps[0]), AllCalls(d, After(d, e, steps[0]), steps[1..]), policy);
    }
  }

  /**
   From an empty server, every interleaving of engine calls reaches a store that a legal run
   of store calls reaches: what the engine draws and reads off the clock meets everything
   the store assumes of its callers.
   */
  lemma EngineIsLegal(d: Deployment, now: Time, steps: seq<Step>)
    requires now > ZERO_TIME && ValidPolicy(d.config.statePolicy) && ServerLegal(d, Boot(now), steps)
    ensures Legal(StoreRuns.Start(now), AllCalls(d, Boot(now), steps), d.config.statePolicy)
    ensures ServerRun(d, Boot(now), steps).w
            == Run(StoreRuns.Start(now), AllCalls(d, Boot(now), steps), d.config.statePolicy)
    ensures ServerInv(d, ServerRun(d, Boot(now), steps))
  {
    hide ServerInv, Legal, Run, ServerLegal, ServerRun, AllCalls;
    BootHolds(d, now);
    ServerRunKeeps(d, Boot(now), steps);
    ServerRunIsStoreRun(d, Boot(now), steps);
  }

  // -------------------------------------------------------------------------
  // Lifetimes
  // -------------------------------------------------------------------------

  /**
   With lifetimes as configured, and a sum of consent and code lifetimes that 64 bits can
   hold, every code of every run expires strictly before the authorization it stands for.
   */
  lemma CodesExpireFirst(d: Deployment, now: Time, steps: seq<Step>)
    requires now > ZERO_TIME && ValidPolicy(d.config.statePolicy) && ServerLegal(d, Boot(now), steps)
    requires LifetimesAccepted(d.config) && d.config.consentTTL + d.config.codeTTL < INT64_HALF
    ensures var codes := ServerRun(d, Boot(now), steps).w.past.codes;
            forall k | k in codes :: codes[k].record.expiresAt < codes[k].record.authorizationEnds
  {
    hide ServerInv, ServerLegal, ServerRun, AuthsBooked, GrantsBooked, IssuesBooked;
    EngineIsLegal(d, now, steps);
    var e := ServerRun(d, Boot(now), steps);
    ServerParts(d, e);
    BookedParts(d, e.w.past, e.ledger);
    InvParts(e.w, d.config.statePolicy);
    CodesWithinConsents(d, e.w.store, e.w.past, e.ledger);
  }

  lemma CodesWithinConsents(d: Deployment, s: State, past: Past, ledger: Ledger)
    requires CredentialInv(s, past)
    requires ConsentsBooked(d, past.auths, ledger.registered, past.consents, ledger.requests)
    requires CodesBooked(d, past.consents, past.codes, ledger.requests)
    requires d.config.refreshTTL > d.config.consentTTL + d.config.codeTTL
    ensures forall k | k in past.codes :: past.codes[k].record.expiresAt < past.codes[k].record.authorizationEnds
  {
    hide AuthsKnown, ConsentsKnown, CodesKnown, TransactionsSpent, CodesSpent;
    forall k | k in past.codes
      ensures past.codes[k].record.expiresAt < past.codes[k].record.authorizationEnds
    {
      var c := past.codes[k].consent;
      assert ConsentBound(past.consents[c].session, past.codes[k].record);
      assert ConsentBooked(d, past.auths, ledger.registered, past.consents[c], ledger.requests[c]);
    }
  }

  // -------------------------------------------------------------------------
  // From one step to a later one
  // -------------------------------------------------------------------------

  lemma {:induction false} ServerRunSplits(d: Deployment, e: Server, steps: seq<Step>, i: nat)
    requires ServerLegal(d, e, steps) && i <= |steps|
    ensures ServerLegal(d, e, steps[..i]) && ServerLegal(d, ServerRun(d, e, steps[..i]), steps[i..])
    ensures ServerRun(d, e, steps) == ServerRun(d, ServerRun(d, e, steps[..i]), steps[i..])
    decreases i
  {
    hide Possible, After;
    if i == 0 {
      assert steps[0..] == steps;
    } else {
      ServerRunSplits(d, After(d, e, steps[0]), steps[1..], i - 1);
      assert steps[..i][1..] == steps[1..][..i - 1] && steps[..i][0] == steps[0];
      assert steps[i..] == steps[1..][i - 1..];
    }
  }

  /** The server in which step `i` of a run takes place. */
  ghost function At(d: Deployment, now: Time, steps: seq<Step>, i: nat): Server
    requires i <= |steps|
  {
    ServerRun(d, Boot(now), steps[..i])
  }

  lemma ServerRunBetween(d: Deployment, now: Time, steps: seq<Step>, i: nat, j: nat)
    requires ServerLegal(d, Boot(now), steps) && i <= j <= |steps|
    requires now > ZERO_TIME && ValidPolicy(d.config.statePolicy)
    ensures ServerLegal(d, At(d, now, steps, i), steps[i..j])
    ensures At(d, now, steps, j) == ServerRun(d, At(d, now, steps, i), steps[i..j])
    ensures ServerInv(d, At(d, now, steps, i)) && ServerInv(d, At(d, now, steps, j))
  {
    hide Possible, After, ServerInv;
    ServerRunSplits(d, Boot(now), steps, j);
    ServerRunSplits(d, Boot(now), steps[..j], i);
    assert steps[..j][..i] == steps[..i] && steps[..j][i..] == steps[i..j];
    BootHolds(d, now);
    ServerRunKeeps(d, Boot(now), steps[..i]);
    ServerRunKeeps(d, Boot(now), steps[..j]);
  }

  lemma ServerRunStep(d: Deployment, now: Time, steps: seq<Step>, i: nat)
    requires ServerLegal(d, Boot(now), steps) && i < |steps|
    requires now > ZERO_TIME && ValidPolicy(d.config.statePolicy)
    ensures Possible(At(d, now, steps, i), steps[i])
    ensures At(d, now, steps, i + 1) == After(d, At(d, now, steps, i), steps[i])
    ensures ServerInv(d, At(d, now, steps, i)) && ServerInv(d, At(d, now, steps, i + 1))
  {
    hide Possible, After, ServerInv, At;
    ServerRunBetween(d, now, steps, i, i + 1);
    assert steps[i..i + 1] == [steps[i]];
    assert [steps[i]][1..] == [];
  }

  /** A dead family stays dead and a spent credential stays spent, whatever the server goes on to do. */
  lemma DeadOnServer(d: Deployment, now: Time, steps: seq<Step>, i: nat, j: nat, family: RefreshFamilyID)
    requires ServerLegal(d, Boot(now), steps) && i <= j <= |steps|
    requires now > ZERO_TIME && ValidPolicy(d.config.statePolicy)
    requires Dead(At(d, now, steps, i).w, family)
    ensures Dead(At(d, now, steps, j).w, family)
  {
    hide ServerInv, Inv, Dead, At, ServerLegal, ServerRun, Legal, Run, AllCalls;
    ServerRunBetween(d, now, steps, i, j);
    var e := At(d, now, steps, i);
    ServerParts(d, e);
    ServerRunIsStoreRun(d, e, steps[i..j]);
    DeadThroughRun(e.w, AllCalls(d, e, steps[i..j]), family, d.config.statePolicy);
  }

  lemma SpentOnServer(d: Deployment, now: Time, steps: seq<Step>, i: nat, j: nat, c: Credential)
    requires ServerLegal(d, Boot(now), steps) && i <= j <= |steps|
    requires now > ZERO_TIME && ValidPolicy(d.config.statePolicy)
    requires Spent(At(d, now, steps, i).w, c)
    ensures Spent(At(d, now, steps, j).w, c)
  {
    hide ServerInv, Inv, Spent, At, ServerLegal, ServerRun, Legal, Run, AllCalls;
    ServerRunBetween(d, now, steps, i, j);
    var e := At(d, now, steps, i);
    ServerParts(d, e);
    ServerRunIsStoreRun(d, e, steps[i..j]);
    SpentThroughRun(e.w, AllCalls(d, e, steps[i..j]), c, d.config.statePolicy);
  }

  // -------------------------------------------------------------------------
  // Each credential advances once, however engine calls interleave
  // -------------------------------------------------------------------------

  /** The credential that a call's commit presents. */
  ghost function Commits(e: Server, step: Step): Credential {
    if Committing(e, step) then Presents(CallOf(e.pending[step.i].plan, step.pruneAt, step.now)) else NoCredential
  }

  ghost predicate GoesThrough(d: Deployment, e: Server, step: Step) {
    Committing(e, step) && Answer(d, e, step).Ok?
  }

  /** A commit of a credential is one store call in the world of the server. */
  lemma CommitIsCall(d: Deployment, e: Server, step: Step)
    requires ServerInv(d, e) && Possible(e, step) && Commits(e, step) != NoCredential && !step.fault
    ensures var call := CallOf(e.pending[step.i].plan, step.pruneAt, step.now);
            && Presents(call) == Commits(e, step)
            && Enabled(e.w, call, d.config.statePolicy)
            && After(d, e, step).w == Next(e.w, call, d.config.statePolicy)
            && Answer(d, e, step) == Apply(e.w.store, call, d.config.statePolicy).1
  {
    hide ServerInv, Enabled, Next, Apply, PlanKnown, SecretsStored;
    var plan := e.pending[step.i].plan;
    assert !plan.PlanBegin?;
    PlanIsKnown(d, e, step);
    AfterWorld(d, e, step);
    CommitEnabled(d, e.w, e.ledger.registered, e.drawn, e.pending.Keys, step.i, plan, step.pruneAt, step.now);
    OneCall(e.w, CallOf(plan, step.pruneAt, step.now), d.config.statePolicy);
  }

  lemma GoingThroughSpends(d: Deployment, e: Server, step: Step)
    requires ServerInv(d, e) && Possible(e, step) && Commits(e, step) != NoCredential && GoesThrough(d, e, step)
    ensures Spent(After(d, e, step).w, Commits(e, step))
  {
    hide ServerInv, Inv, Possible, Enabled, Next, Apply, Spent, Commits, After;
    CommitIsCall(d, e, step);
    ServerParts(d, e);
    SuccessSpends(e.w, CallOf(e.pending[step.i].plan, step.pruneAt, step.now), d.config.statePolicy);
  }

  lemma SpentDoesNotGoThrough(d: Deployment, e: Server, step: Step)
    requires ServerInv(d, e) && Possible(e, step) && Spent(e.w, Commits(e, step))
    ensures !GoesThrough(d, e, step)
  {
    hide ServerInv, Enabled, Next, Apply, Spent, Commits, After;
    if GoesThrough(d, e, step) {
      NothingIsNotSpent(e.w);
      CommitIsCall(d, e, step);
      SpentRefused(e.w, CallOf(e.pending[step.i].plan, step.pruneAt, step.now), d.config.statePolicy);
    }
  }

  lemma NothingIsNotSpent(w: World)
    ensures !Spent(w, NoCredential)
  {
  }

  /**
   Of all the engine calls that reach their commit with one credential (a transaction, a
   consent, a code or a refresh token), at most one goes through.
   */
  lemma EngineSpendsOnce(d: Deployment, now: Time, steps: seq<Step>, i: nat, j: nat)
    requires now > ZERO_TIME && ValidPolicy(d.config.statePolicy) && ServerLegal(d, Boot(now), steps)
    requires i < j < |steps| && GoesThrough(d, At(d, now, steps, i), steps[i])
    requires Commits(At(d, now, steps, i), steps[i]) == Commits(At(d, now, steps, j), steps[j]) != NoCredential
    ensures !GoesThrough(d, At(d, now, steps, j), steps[j])
  {
    hide ServerInv, Possible, After, At, Spent, Commits, GoesThrough, ServerLegal, ServerRun;
    ServerRunStep(d, now, steps, i);
    ServerRunStep(d, now, steps, j);
    GoingThroughSpends(d, At(d, now, steps, i), steps[i]);
    SpentOnServer(d, now, steps, i + 1, j, Commits(At(d, now, steps, i), steps[i]));
    SpentDoesNotGoThrough(d, At(d, now, steps, j), steps[j]);
  }

  // -------------------------------------------------------------------------
  // Replay
  // -------------------------------------------------------------------------

  /** The call is on its way to revoke the family, or the family is dead already. */
  ghost predicate Closing(e: Server, i: nat, family: RefreshFamilyID) {
    || Dead(e.w, family)
    || (i in e.pending && e.pending[i].Planned? && e.pending[i].plan.PlanRevoke? && e.pending[i].plan.family == family)
  }

  /**
   Presenting a spent token through its own client, before its family expires, makes the
   engine set out to revoke the family, unless the family is revoked already.
   */
  lemma ReplayIsCaught(d: Deployment, e: Server, r: Request, read: Source)
    requires r.Renew? && r.presented != "" && Spent(e.w, RefreshToken(DigestCredential(r.presented)))
    requires var g := e.w.past.grants[DigestCredential(r.presented)];
             NewIdentifier(r.clientID) == Some(g.clientID) && e.w.now < g.expiresAt && r.renewal.now <= g.expiresAt
    requires ServerInv(d, e) && Possible(e, Begun(r, read))
    ensures Closing(After(d, e, Begun(r, read)), e.calls, e.w.past.grants[DigestCredential(r.presented)].familyID)
  {
    hide ServerInv, Inv, NewIdentifier, Refresh, Dead, Spent, Prepare, After, Possible, Seen;
    var k := DigestCredential(r.presented);
    ServerParts(d, e);
    BegunMoves(d, e, r, read);
    SpentRow(e.w, k, d.config.statePolicy);
    BegunSees(e, r, read, k);
    ReplayPlansRevocation(d, r.presented, r.clientID, e.w.store.refresh[k], r.renewal);
    RenewPrepares(d, Seen(e, read), r);
  }

  /** A live row is read as it is stored. */
  lemma BegunSees(e: Server, r: Request, read: Source, k: CredentialDigest)
    requires Possible(e, Begun(r, read)) && k in e.w.store.refresh && e.w.now < e.w.store.refresh[k].expiresAt
    ensures Lookup(Seen(e, read).refresh, k) == Some(e.w.store.refresh[k])
  {
    hide Alike, RowsKnown, Secrets;
    if read.Some? {
      AlikeGrants(e.w.store, read.value, e.w.now, k);
    }
  }

  lemma BegunMoves(d: Deployment, e: Server, r: Request, read: Source)
    ensures After(d, e, Begun(r, read)).pending == Keep(e.pending, e.calls, Prepare(d, Seen(e, read), r))
    ensures After(d, e, Begun(r, read)).w == e.w
  {
    hide Prepare, Draw, Secrets, Keep, Seen;
    NoCalls(e.w, d.config.statePolicy);
  }

  lemma RenewPrepares(d: Deployment, s: State, r: Request)
    requires r.Renew?
    ensures Prepare(d, s, r)
            == Kept(r, Refresh(d, r.presented, r.clientID, Lookup(s.refresh, DigestCredential(r.presented)), r.renewal))
  {
    hide Refresh;
  }

  lemma AlikeGrants(a: State, b: State, now: Time, k: CredentialDigest)
    requires Alike(a, b, now) && k in a.refresh && now < a.refresh[k].expiresAt
    ensures k in b.refresh && b.refresh[k] == a.refresh[k]
  {
    hide PruneAuthorizations, PruneConsents, PruneCodes, BlankAuthorizations, BlankConsents;
    assert FamilyLive(a.refresh, a.refresh[k].familyID, now);
    assert k in PruneRefresh(a.refresh, now) && PruneRefresh(a.refresh, now) == PruneRefresh(b.refresh, now);
  }

  /** A spent token of an unexpired family is still stored, as spent; and revoked only with its family. */
  lemma SpentRow(w: World, k: CredentialDigest, policy: StatePolicy)
    requires Spent(w, RefreshToken(k)) && w.now < w.past.grants[k].expiresAt
    requires Inv(w, policy)
    ensures k in w.store.refresh && w.store.refresh[k].consumedAt != ZERO_TIME
    ensures w.store.refresh[k].clientID == w.past.grants[k].clientID
    ensures w.store.refresh[k].familyID == w.past.grants[k].familyID
    ensures w.store.refresh[k].expiresAt == w.past.grants[k].expiresAt
    ensures w.store.refresh[k].revokedAt != ZERO_TIME ==> Dead(w, w.past.grants[k].familyID)
  {
    hide Inv, FamiliesInv, RowsInv, Dead;
    InvParts(w, policy);
    StoredUntilExpiry(w.store.refresh, w.past, w.now, policy, k);
    StoredRecord(w, k, policy);
    if w.store.refresh[k].revokedAt != ZERO_TIME {
      RevokedIsDead(w, k, policy);
    }
  }

  lemma StoredRecord(w: World, k: CredentialDigest, policy: StatePolicy)
    requires Inv(w, policy) && k in w.store.refresh && k in w.past.grants
    ensures w.store.refresh[k].(consumedAt := ZERO_TIME, revokedAt := ZERO_TIME) == w.past.grants[k]
    ensures w.store.refresh[k].clientID == w.past.grants[k].clientID
    ensures w.store.refresh[k].familyID == w.past.grants[k].familyID
    ensures w.store.refresh[k].expiresAt == w.past.grants[k].expiresAt
  {
    hide FamiliesInv, CredentialInv, WholeFamilies, Retained, ActiveGrants;
  }

  lemma RevokedIsDead(w: World, k: CredentialDigest, policy: StatePolicy)
    requires Inv(w, policy) && k in w.store.refresh && w.store.refresh[k].revokedAt != ZERO_TIME
    ensures Dead(w, w.store.refresh[k].familyID)
  {
    hide CredentialInv, Retained, ActiveGrants, Chained, Related, GenerationsBounded;
    forall b | b in w.store.refresh && w.store.refresh[b].familyID == w.store.refresh[k].familyID
      ensures w.store.refresh[b].revokedAt != ZERO_TIME
    {
      assert b in w.past.grants && w.past.grants[b].familyID == w.store.refresh[k].familyID;
    }
  }

  /** Until it returns, the call stays on its way; when it returns, the family is dead. */
  lemma ClosingStays(d: Deployment, e: Server, step: Step, i: nat, family: RefreshFamilyID)
    requires ServerInv(d, e) && Possible(e, step) && ValidPolicy(d.config.statePolicy)
    requires i < e.calls && Closing(e, i, family) && !(step.Finished? && step.i == i && step.fault)
    ensures Closing(After(d, e, step), i, family) && i < After(d, e, step).calls
  {
    hide ServerInv, Inv, Dead, Run, Answer, Book, Draw, Prepare, Proceed, Apply, Calls, Engine.MetadataAccepted;
    hide TouchClient;
    if Dead(e.w, family) {
      DeadThroughStep(d, e, step, family);
    } else if step.Finished? && step.i == i {
      PlanIsKnown(d, e, step);
      RevokePlanKills(d, e, step);
    }
  }

  lemma DeadThroughStep(d: Deployment, e: Server, step: Step, family: RefreshFamilyID)
    requires ServerInv(d, e) && Possible(e, step) && ValidPolicy(d.config.statePolicy) && Dead(e.w, family)
    ensures Dead(After(d, e, step).w, family)
  {
    hide ServerInv, Inv, Possible, Dead, After, Calls, Legal, Run;
    ServerParts(d, e);
    AfterWorld(d, e, step);
    CallsAreLegal(d, e, step);
    DeadThroughRun(e.w, Calls(d, e, step), family, d.config.statePolicy);
  }

  lemma RevokePlanKills(d: Deployment, e: Server, step: Step)
    requires Committing(e, step) && e.pending[step.i].plan.PlanRevoke? && !step.fault
    requires ServerInv(d, e) && Possible(e, step)
    ensures Dead(After(d, e, step).w, e.pending[step.i].plan.family)
  {
    hide ServerInv, SecretsStored, Dead, Enabled, Next;
    PlanIsKnown(d, e, step);
    AfterWorld(d, e, step);
    var plan, policy := e.pending[step.i].plan, d.config.statePolicy;
    var call := CallOf(plan, step.pruneAt, step.now);
    CommitEnabled(d, e.w, e.ledger.registered, e.drawn, e.pending.Keys, step.i, plan, step.pruneAt, step.now);
    OneCall(e.w, call, policy);
    RevokeKills(e.w, call, policy);
  }

  lemma {:induction false} ClosingOnServer(d: Deployment, e: Server, steps: seq<Step>, i: nat, family: RefreshFamilyID)
    requires ServerInv(d, e) && ServerLegal(d, e, steps) && ValidPolicy(d.config.statePolicy)
    requires i < e.calls && Closing(e, i, family)
    requires forall f | 0 <= f < |steps| :: !(steps[f].Finished? && steps[f].i == i && steps[f].fault)
    ensures Closing(ServerRun(d, e, steps), i, family)
    decreases |steps|
  {
    hide ServerInv, Possible, After, Closing;
    if steps != [] {
      ClosingStays(d, e, steps[0], i, family);
      ServerStepKeeps(d, e, steps[0]);
      ClosingOnServer(d, After(d, e, steps[0]), steps[1..], i, family);
    }
  }

  /**
   Replay detection is complete and final: once a call that presented a spent token has
   returned, unless its own store call failed outright, no active grant of the family is
   left and no later step of the server makes one.
   */
  lemma ReplayEndsFamily(d: Deployment, now: Time, steps: seq<Step>, b: nat, m: nat)
    requires now > ZERO_TIME && ValidPolicy(d.config.statePolicy) && ServerLegal(d, Boot(now), steps)
    requires b < m <= |steps| && steps[b].Begun? && steps[b].request.Renew? && steps[b].request.presented != ""
    requires Spent(At(d, now, steps, b).w, RefreshToken(DigestCredential(steps[b].request.presented)))
    requires var e, r := At(d, now, steps, b), steps[b].request;
             var g := e.w.past.grants[DigestCredential(r.presented)];
             NewIdentifier(r.clientID) == Some(g.clientID) && e.w.now < g.expiresAt && r.renewal.now <= g.expiresAt
    requires At(d, now, steps, b).calls !in At(d, now, steps, m).pending
    requires forall f | b < f < m ::
               !(steps[f].Finished? && steps[f].i == At(d, now, steps, b).calls && steps[f].fault)
    ensures Dead(At(d, now, steps, m).w,
                 At(d, now, steps, b).w.past.grants[DigestCredential(steps[b].request.presented)].familyID)
  {
    hide ServerInv, Possible, At, Spent, Dead, ServerLegal, ServerRun, NewIdentifier, Prepare, Draw;
    var e, r := At(d, now, steps, b), steps[b].request;
    ServerRunStep(d, now, steps, b);
    SpentIsRecorded(e.w, DigestCredential(r.presented));
    var family := e.w.past.grants[DigestCredential(r.presented)].familyID;
    ReplayIsCaught(d, e, r, steps[b].read);
    ServerRunBetween(d, now, steps, b + 1, m);
    ClosingOnServer(d, At(d, now, steps, b + 1), steps[b + 1..m], e.calls, family);
  }

  // -------------------------------------------------------------------------
  // Two refreshes of one token
  // -------------------------------------------------------------------------

  /**
   A rotation built from its own predecessor is refused only for a spent or revoked family
   or the generation limit.
   */
  lemma RotationOutcome(p: State, rotation: Rotation, policy: StatePolicy, now: Time)
    requires rotation.current in p.refresh && rotation.successor.digest !in p.refresh
    requires rotation.successor.digest != ZeroDigest && now < p.refresh[rotation.current].expiresAt
    requires RotationFact(p.refresh[rotation.current], rotation)
    ensures var (after, r) := CommitRefreshRotation(p, rotation, policy, now);
            if p.refresh[rotation.current].Active()
               && rotation.successor.generation < policy.capacity.maxRefreshGenerations
            then r == Ok
            else r == Err(Revoked) && after == RevokeFamily(p, rotation.familyID, now)
  {
    hide ValidateRefreshRotation, IsSubsetOf, RevokeFamily;
    RotationVerdict(p.refresh[rotation.current], rotation, now);
  }

  lemma RotationFactStays(a: Grant, b: Grant, r: Rotation)
    requires a.(consumedAt := ZERO_TIME, revokedAt := ZERO_TIME) == b
    requires RotationFact(b, r)
    ensures RotationFact(a, r)
  {
    assert a.scopes == b.scopes && a.principal == b.principal;
    hide IsSubsetOf;
  }

  /** A planned rotation that reaches its commit in time spends its token or kills its family. */
  lemma RotationSettles(w: World, rotation: Rotation, policy: StatePolicy, pruneAt: Time, now: Time)
    requires w.now <= pruneAt <= now && rotation.current in w.past.grants
    requires now < w.past.grants[rotation.current].expiresAt && RotationFact(w.past.grants[rotation.current], rotation)
    requires rotation.successor.digest !in w.past.grants && rotation.successor.digest != ZeroDigest
    requires Inv(w, policy)
    ensures var w' := Next(w, Rotate(rotation, pruneAt, now), policy);
            Spent(w', RefreshToken(rotation.current)) || Dead(w', rotation.familyID)
  {
    hide Inv, Prune, RevokeFamily, FamiliesInv, RowsInv, CommitRefreshRotation, Record, Spent, RotationFact;
    var e, p := Rotate(rotation, pruneAt, now), Pruned(w, pruneAt, now);
    PrunedKeeps(w, pruneAt, now, policy);
    InvParts(p, policy);
    KnownRows(p, policy);
    StoredUntilExpiry(p.store.refresh, w.past, now, policy, rotation.current);
    StoredRecord(p, rotation.current, policy);
    RotationFactStays(p.store.refresh[rotation.current], w.past.grants[rotation.current], rotation);
    RotationOutcome(p.store, rotation, policy, now);
    if Apply(w.store, e, policy).1.Ok? {
      SuccessSpends(w, e, policy);
    } else {
      RotationNames(w.past.grants[rotation.current], rotation);
      RevokedRows(p.store, rotation.familyID, now);
      GrantHasFamily(w, rotation.current, policy);
    }
  }

  lemma RotationNames(g: Grant, r: Rotation)
    requires RotationFact(g, r)
    ensures r.familyID == g.familyID && r.generation == g.generation && r.successor.expiresAt == g.expiresAt
  {
  }

  lemma GrantHasFamily(w: World, k: CredentialDigest, policy: StatePolicy)
    requires k in w.past.grants && Inv(w, policy)
    ensures w.past.grants[k].familyID in w.past.families
  {
    hide CredentialInv, RowsInv, ActiveGrants, Related, GenerationsBounded;
  }

  lemma ServerAges(d: Deployment, now: Time, steps: seq<Step>, i: nat, j: nat)
    requires ServerLegal(d, Boot(now), steps) && i <= j <= |steps|
    requires now > ZERO_TIME && ValidPolicy(d.config.statePolicy)
    ensures At(d, now, steps, i).w.now <= At(d, now, steps, j).w.now
    ensures Extends(At(d, now, steps, i).w.past, At(d, now, steps, j).w.past)
  {
    hide ServerInv, Extends, At, ServerLegal, ServerRun, Legal, Run, AllCalls;
    ServerRunBetween(d, now, steps, i, j);
    var e := At(d, now, steps, i);
    ServerRunIsStoreRun(d, e, steps[i..j]);
    RunAges(e.w, AllCalls(d, e, steps[i..j]), d.config.statePolicy);
    RunExtends(e.w, AllCalls(d, e, steps[i..j]), d.config.statePolicy);
  }

  lemma RecordKept(past: Past, past': Past, k: CredentialDigest)
    requires Extends(past, past') && k in past.grants
    ensures k in past'.grants && past'.grants[k] == past.grants[k]
  {
  }

  /** The step commits a rotation of the token, and its store call does not fail outright. */
  ghost predicate CommitsRotation(e: Server, step: Step, token: CredentialDigest) {
    && Committing(e, step) && !step.fault
    && e.pending[step.i].plan.PlanRotate? && e.pending[step.i].plan.rotation.current == token
  }

  ghost function RotationOf(e: Server, step: Step, token: CredentialDigest): Rotation
    requires CommitsRotation(e, step, token)
  {
    e.pending[step.i].plan.rotation
  }

  lemma PlannedRotation(d: Deployment, e: Server, step: Step, token: CredentialDigest)
    requires CommitsRotation(e, step, token)
    requires ServerInv(d, e) && Possible(e, step)
    ensures step.Finished?
    ensures var r := RotationOf(e, step, token);
            && r.current == token && token in e.w.past.grants && RotationFact(e.w.past.grants[token], r)
            && r.successor.digest !in e.w.past.grants && r.successor.digest != ZeroDigest
            && e.w.now <= step.pruneAt <= step.now
            && After(d, e, step).w == Next(e.w, Rotate(r, step.pruneAt, step.now), d.config.statePolicy)
            && Commits(e, step) == RefreshToken(token)
            && (Answer(d, e, step).Ok?
                ==> Apply(e.w.store, Rotate(r, step.pruneAt, step.now), d.config.statePolicy).1.Ok?)
  {
    hide ServerInv, SecretsStored, RotationFact, Elements, Enabled, Next, Apply, After;
    PlanIsKnown(d, e, step);
    CommitIsCall(d, e, step);
    PendingIsFresh(e.w.past, e.drawn, e.pending.Keys, step.i, RotationOf(e, step, token).successor.digest);
  }

  lemma RotationCommitSettles(d: Deployment, e: Server, step: Step, token: CredentialDigest)
    requires CommitsRotation(e, step, token) && step.Finished?
    requires token in e.w.past.grants && step.now < e.w.past.grants[token].expiresAt
    requires ServerInv(d, e) && Possible(e, step)
    ensures Spent(After(d, e, step).w, RefreshToken(token))
            || Dead(After(d, e, step).w, e.w.past.grants[token].familyID)
    ensures After(d, e, step).w.now == step.now
  {
    hide ServerInv, Inv, Possible, After, Spent, Dead, RotationFact, Apply, Next, CommitsRotation, RotationOf, Answer;
    hide Commits;
    ServerParts(d, e);
    PlannedRotation(d, e, step, token);
    CommitMovesClock(d, e, step, token);
    var r := RotationOf(e, step, token);
    RotationNames(e.w.past.grants[token], r);
    RotationSettles(e.w, r, d.config.statePolicy, step.pruneAt, step.now);
  }

  /** Replaying a spent token at the commit kills the family. */
  lemma SecondCommitKills(d: Deployment, e: Server, step: Step, token: CredentialDigest)
    requires CommitsRotation(e, step, token) && Spent(e.w, RefreshToken(token)) && step.Finished?
    requires step.now < e.w.past.grants[token].expiresAt
    requires ServerInv(d, e) && Possible(e, step)
    ensures Dead(After(d, e, step).w, e.w.past.grants[token].familyID)
  {
    hide ServerInv, Inv, Possible, After, Spent, Dead, RotationFact, Apply, Next, CommitsRotation, RotationOf, Answer;
    hide Commits;
    ServerParts(d, e);
    PlannedRotation(d, e, step, token);
    var r := RotationOf(e, step, token);
    RotationNames(e.w.past.grants[token], r);
    ReplayRevokes(e.w, r, step.pruneAt, step.now, d.config.statePolicy);
  }

  /**
   If two refreshes of one token both reach the commit before the family expires, whatever
   ran in between, the family ends fully revoked, and stays so.
   */
  lemma RaceEndsFamily(d: Deployment, now: Time, steps: seq<Step>, i: nat, j: nat, m: nat, token: CredentialDigest)
    requires now > ZERO_TIME && ValidPolicy(d.config.statePolicy) && ServerLegal(d, Boot(now), steps)
    requires i < j < m <= |steps|
    requires CommitsRotation(At(d, now, steps, i), steps[i], token)
             && CommitsRotation(At(d, now, steps, j), steps[j], token)
    requires steps[j].now < RotationOf(At(d, now, steps, j), steps[j], token).successor.expiresAt
    ensures token in At(d, now, steps, i).w.past.grants
    ensures Dead(At(d, now, steps, m).w, At(d, now, steps, i).w.past.grants[token].familyID)
  {
    hide ServerInv, Possible, At, Spent, Dead, ServerLegal, ServerRun, After, RotationFact, Answer, Commits, Next;
    hide Apply;
    hide CommitsRotation, RotationOf, Extends;
    var a, b := At(d, now, steps, i), At(d, now, steps, j);
    ServerRunStep(d, now, steps, i);
    ServerRunStep(d, now, steps, j);
    PlannedRotation(d, a, steps[i], token);
    PlannedRotation(d, b, steps[j], token);
    RotationNames(b.w.past.grants[token], RotationOf(b, steps[j], token));
    ServerAges(d, now, steps, i, j);
    RecordKept(a.w.past, b.w.past, token);
    ServerAges(d, now, steps, i + 1, j);
    CommitMovesClock(d, a, steps[i], token);
    var family := a.w.past.grants[token].familyID;
    RotationCommitSettles(d, a, steps[i], token);
    if Dead(At(d, now, steps, i + 1).w, family) {
      DeadOnServer(d, now, steps, i + 1, j + 1, family);
    } else {
      SpentOnServer(d, now, steps, i + 1, j, RefreshToken(token));
      SecondCommitKills(d, b, steps[j], token);
    }
    DeadOnServer(d, now, steps, j + 1, m, family);
  }

  lemma CommitMovesClock(d: Deployment, e: Server, step: Step, token: CredentialDigest)
    requires CommitsRotation(e, step, token)
    requires ServerInv(d, e) && Possible(e, step)
    ensures After(d, e, step).w.now == step.now
  {
    hide ServerInv, RotationFact, Apply, Record, After, Answer, Commits;
    PlannedRotation(d, e, step, token);
  }

  // -------------------------------------------------------------------------
  // The engine against its own store
  // -------------------------------------------------------------------------

  /** Whether a login that is otherwise in order is prepared depends on the client being stored, and on nothing else. */
  lemma LoginNeedsClient(d: Deployment, e: Server, presented: string, principal: Principal, a: LoginAnswers)
    requires var k := DigestCredential(presented);
             k in e.w.store.authorizations && a.checkedAt <= e.w.store.authorizations[k].expiresAt
    requires NewIdentifier(principal.subject).Some? && a.available.Some? && a.token.Some?
    requires ServerInv(d, e)
    ensures var auth := e.w.store.authorizations[DigestCredential(presented)];
            CompleteLogin(d, presented, principal, Some(auth), Lookup(e.w.store.clients, auth.clientID), a).PlanLogin?
            <==> auth.clientID in e.w.store.clients
  {
    hide ServerInv, Inv, Intersection, NewIdentifier, SecretsStored, Numbered, PendingKnown, FamiliesInv, RowsInv;
    hide ConsentsBooked, CodesBooked, GrantsBooked, IssuesBooked, CredentialInv, IsSubsetOf, AuthFits;
    hide ActiveGrants;
    hide ConsentsKnown, CodesKnown;
    ServerParts(d, e);
    BookedParts(d, e.w.past, e.ledger);
    InvKnows(e.w, d.config.statePolicy);
    var k := DigestCredential(presented);
    var auth := e.w.store.authorizations[k];
    AuthReadKnown(e.w.store.authorizations, e.w.past.auths, k);
    assert AuthCore(auth).requestedScopes == AuthCore(e.w.past.auths[k]).requestedScopes;
    assert AuthFact(d, e.ledger.registered, e.w.past.auths[k], e.ledger.requests[k].at);
    if auth.clientID in e.w.store.clients {
      var client := e.w.store.clients[auth.clientID];
      assert client.(lastUsedAt := ZERO_TIME) == e.ledger.registered[auth.clientID].(lastUsedAt := ZERO_TIME);
      assert client.redirectURIs == e.ledger.registered[auth.clientID].redirectURIs;
    }
  }

  /** The record the plan spends is stored, unspent and unexpired, and its own record has not run out. */
  ghost predicate Timely(s: State, plan: Plan, now: Time) {
    match plan
    case Refuse(_) => false
    case PlanBegin(_, _) => true
    case PlanLogin(login, _) =>
      && login.transaction in s.authorizations && s.authorizations[login.transaction].consumedAt == ZERO_TIME
      && now < s.authorizations[login.transaction].expiresAt
      && now < login.consent.expiresAt && now < login.consent.authorizationEnds
    case PlanDecide(decide, _, _) =>
      && decide.consent in s.consents && s.consents[decide.consent].consumedAt == ZERO_TIME
      && now < s.consents[decide.consent].expiresAt
      && (decide.decision == Approve ==> now < decide.code.expiresAt)
    case PlanExchange(spent, grant, _) =>
      && spent in s.codes && s.codes[spent].consumedAt == ZERO_TIME && now < s.codes[spent].expiresAt
      && now < grant.expiresAt && grant.familyID != ""
    case PlanRotate(rotation, _) =>
      && rotation.current in s.refresh && s.refresh[rotation.current].Active()
      && now < s.refresh[rotation.current].expiresAt
    case PlanRevoke(_, _, _) => true
  }

  /** The table that the plan would add to is full. */
  ghost predicate Full(p: State, plan: Plan, policy: StatePolicy) {
    match plan
    case PlanBegin(_, _) => |p.authorizations| >= policy.capacity.maxAuthorizations
    case PlanLogin(_, _) => |p.consents| >= policy.capacity.maxConsents
    case PlanDecide(decide, _, _) => decide.decision == Approve && |p.codes| >= policy.capacity.maxCodes
    case PlanExchange(_, _, _) => |ActiveGrants(p.refresh)| >= policy.capacity.maxRefreshGrants
    case _ => false
  }

  ghost predicate AtLimit(plan: Plan, policy: StatePolicy) {
    plan.PlanRotate? && plan.rotation.successor.generation >= policy.capacity.maxRefreshGenerations
  }

  lemma BeginOutcome(p: State, auth: Authorization, policy: StatePolicy)
    requires DigestCredential(auth.token) !in p.authorizations
    ensures CreateAuthorization(p, auth, policy).1
            == if |p.authorizations| >= policy.capacity.maxAuthorizations then Err(Capacity) else Ok
  {
  }

  lemma LoginOutcome(p: State, login: LoginCommit, policy: StatePolicy, now: Time)
    requires login.transaction in p.authorizations && p.authorizations[login.transaction].consumedAt == ZERO_TIME
    requires now < p.authorizations[login.transaction].expiresAt
    requires now < login.consent.expiresAt && now < login.consent.authorizationEnds
    requires DigestCredential(login.consent.token) !in p.consents
    requires LoginBound(p.authorizations[login.transaction], login.consent)
    ensures CommitLogin(p, login, policy, now).1
            == if |p.consents| >= policy.capacity.maxConsents then Err(Capacity) else Ok
  {
    hide ValidateLoginCommit, LoginBound;
    LoginVerdict(p.authorizations[login.transaction], login.consent, now);
  }

  lemma DecideOutcome(p: State, decide: ConsentCommit, policy: StatePolicy, now: Time)
    requires decide.consent in p.consents && p.consents[decide.consent].consumedAt == ZERO_TIME
    requires now < p.consents[decide.consent].expiresAt
    requires decide.decision == Approve ==>
               && now < decide.code.expiresAt && decide.code.digest != ZeroDigest && decide.code.digest !in p.codes
               && ConsentBound(p.consents[decide.consent], decide.code)
    requires decide.decision != Approve ==> decide.decision == Deny && decide.code.digest == ZeroDigest
    ensures CommitConsent(p, decide, policy, now).1
            == if decide.decision == Approve && |p.codes| >= policy.capacity.maxCodes then Err(Capacity) else Ok
  {
    hide ValidateConsentCommit, ConsentBound;
    ConsentVerdict(p.consents[decide.consent], decide, now);
  }

  lemma ExchangeOutcome(p: State, spent: CredentialDigest, grant: Grant, policy: StatePolicy, now: Time)
    requires spent in p.codes && p.codes[spent].consumedAt == ZERO_TIME && now < p.codes[spent].expiresAt
    requires now < grant.expiresAt && grant.familyID != "" && grant.digest != ZeroDigest && grant.digest !in p.refresh
    requires ExchangeBound(p.codes[spent], grant) && grant.Active()
    ensures CommitCodeExchange(p, ExchangeCommit(spent, Some(grant)), policy, now).1
            == if |ActiveGrants(p.refresh)| >= policy.capacity.maxRefreshGrants then Err(Capacity) else Ok
  {
    hide ActiveGrants, ValidateCodeExchangeCommit, ExchangeBound;
    ExchangeVerdict(p.codes[spent], ExchangeCommit(spent, Some(grant)), now);
  }

  lemma LiveRowsSurvive(s: State, pruneAt: Time, now: Time)
    requires pruneAt <= now
    ensures forall k | k in s.authorizations && now < s.authorizations[k].expiresAt ::
              k in Prune(s, pruneAt).authorizations
    ensures forall k | k in s.consents && now < s.consents[k].expiresAt :: k in Prune(s, pruneAt).consents
    ensures forall k | k in s.codes && now < s.codes[k].expiresAt :: k in Prune(s, pruneAt).codes
    ensures forall k | k in s.refresh && now < s.refresh[k].expiresAt :: k in Prune(s, pruneAt).refresh
  {
  }

  lemma ConsentReadKnown(rows: Consents, consents: Sessions, k: CredentialDigest)
    requires ConsentsKnown(rows, consents) && k in rows
    ensures k in consents && ConsentCore(rows[k]) == ConsentCore(consents[k].session)
  {
  }

  lemma CodeReadKnown(rows: Codes, codes: Records, k: CredentialDigest)
    requires CodesKnown(rows, codes) && k in rows
    ensures k in codes && rows[k].(consumedAt := ZERO_TIME) == codes[k].record.(consumedAt := ZERO_TIME)
  {
  }

  ghost function Verdict(p: State, plan: Plan, policy: StatePolicy): Outcome {
    if Full(p, plan, policy) then Err(Capacity) else if AtLimit(plan, policy) then Err(Revoked) else Ok
  }

  /** The commits of sessions and codes, on a pruned world. */
  lemma SessionAnswers(d: Deployment, p: World, registered: map<ClientID, Client>, drawn: map<string, nat>,
                       pending: set<nat>, i: nat, plan: Plan, policy: StatePolicy)
    requires (plan.PlanLogin? || plan.PlanDecide?) && Timely(p.store, plan, p.now)
    requires SecretsStored(p.past, drawn, pending) && i in pending
    requires PlanKnown(d, p.past, registered, drawn, i, plan)
    requires Inv(p, policy)
    ensures (if plan.PlanLogin? then CommitLogin(p.store, plan.login, policy, p.now).1
             else CommitConsent(p.store, plan.decide, policy, p.now).1) == Verdict(p.store, plan, policy)
  {
    hide Inv, SecretsStored, LoginBound, ConsentBound, CommitLogin, CommitConsent, Elements;
    hide AuthsKnown, ConsentsKnown, CodesKnown;
    InvKnows(p, policy);
    KnownRows(p, policy);
    if plan.PlanLogin? {
      var login := plan.login;
      PendingIsFresh(p.past, drawn, pending, i, DigestCredential(login.consent.token));
      AuthReadKnown(p.store.authorizations, p.past.auths, login.transaction);
      LoginBoundAgain(p.past.auths[login.transaction], p.store.authorizations[login.transaction], login.consent);
      LoginOutcome(p.store, login, policy, p.now);
    } else {
      var decide := plan.decide;
      ConsentReadKnown(p.store.consents, p.past.consents, decide.consent);
      if decide.decision == Approve {
        PendingIsFresh(p.past, drawn, pending, i, decide.code.digest);
        ConsentBoundAgain(p.past.consents[decide.consent].session, p.store.consents[decide.consent], decide.code);
      }
      DecideOutcome(p.store, decide, policy, p.now);
    }
  }

  /** The commits of grants, on a pruned world. */
  lemma GrantAnswers(d: Deployment, p: World, registered: map<ClientID, Client>, drawn: map<string, nat>,
                     pending: set<nat>, i: nat, plan: Plan, policy: StatePolicy)
    requires (plan.PlanExchange? || plan.PlanRotate?) && Timely(p.store, plan, p.now)
    requires SecretsStored(p.past, drawn, pending) && i in pending
    requires PlanKnown(d, p.past, registered, drawn, i, plan)
    requires Inv(p, policy)
    ensures (if plan.PlanRotate? then CommitRefreshRotation(p.store, plan.rotation, policy, p.now).1
             else CommitCodeExchange(p.store, ExchangeCommit(plan.spent, Some(plan.grant)), policy, p.now).1)
            == Verdict(p.store, plan, policy)
  {
    hide Inv, SecretsStored, ExchangeBound, RotationFact, Verifies, Elements, ActiveGrants, RevokeFamily;
    hide AuthsKnown, ConsentsKnown, CodesKnown, CommitCodeExchange, CommitRefreshRotation;
    InvKnows(p, policy);
    KnownRows(p, policy);
    if plan.PlanExchange? {
      PendingIsFresh(p.past, drawn, pending, i, plan.grant.digest);
      CodeReadKnown(p.store.codes, p.past.codes, plan.spent);
      ExchangeBoundAgain(p.past.codes[plan.spent].record, p.store.codes[plan.spent], plan.grant);
      ExchangeOutcome(p.store, plan.spent, plan.grant, policy, p.now);
    } else {
      var r := plan.rotation;
      PendingIsFresh(p.past, drawn, pending, i, r.successor.digest);
      StoredRecord(p, r.current, policy);
      RotationFactStays(p.store.refresh[r.current], p.past.grants[r.current], r);
      RotationOutcome(p.store, r, policy, p.now);
    }
  }

  /** What is live at the commit survives the prune before it. */
  lemma TimelyAfterPrune(s: State, plan: Plan, pruneAt: Time, now: Time)
    requires Timely(s, plan, now) && pruneAt <= now
    ensures Timely(Prune(s, pruneAt), plan, now)
  {
    hide Prune;
    LiveRowsSurvive(s, pruneAt, now);
    PruneKeepsRowsOf(s, pruneAt);
    PruneKeepsClients(s, pruneAt);
  }

  lemma CommitAnswers(d: Deployment, w: World, registered: map<ClientID, Client>, drawn: map<string, nat>,
                      pending: set<nat>, i: nat, plan: Plan, pruneAt: Time, now: Time)
    requires !plan.Refuse? && !plan.PlanBegin? && Timely(w.store, plan, now) && w.now <= pruneAt <= now
    requires SecretsStored(w.past, drawn, pending) && i in pending
    requires PlanKnown(d, w.past, registered, drawn, i, plan)
    requires Inv(w, d.config.statePolicy)
    ensures Apply(w.store, CallOf(plan, pruneAt, now), d.config.statePolicy).1
            == Verdict(Prune(w.store, pruneAt), plan, d.config.statePolicy)
  {
    hide Inv, Prune, SecretsStored, PlanKnown, Timely;
    hide CommitLogin, CommitConsent, CommitCodeExchange, CommitRefreshRotation, RevokeFamily;
    var policy, p := d.config.statePolicy, Pruned(w, pruneAt, now);
    PrunedKeeps(w, pruneAt, now, policy);
    TimelyAfterPrune(w.store, plan, pruneAt, now);
    if plan.PlanLogin? || plan.PlanDecide? {
      hide Verdict;
      SessionAnswers(d, p, registered, drawn, pending, i, plan, policy);
    } else if !plan.PlanRevoke? {
      hide Verdict;
      GrantAnswers(d, p, registered, drawn, pending, i, plan, policy);
    }
  }

  /**
   The engine is never refused by its own validators: when the record it spends is live and
   unspent at the commit, only a full table or the generation limit can refuse it.
   */
  lemma OnlyCapacityRefuses(d: Deployment, e: Server, step: Step)
    requires Committing(e, step) && !step.fault && Timely(e.w.store, e.pending[step.i].plan, step.now)
    requires Possible(e, step)
    requires ServerInv(d, e)
    ensures Answer(d, e, step) == Verdict(Prune(e.w.store, step.pruneAt), e.pending[step.i].plan, d.config.statePolicy)
  {
    hide ServerInv, Inv, SecretsStored, PlanKnown, Prune, Verdict;
    hide CommitLogin, CommitConsent, CommitCodeExchange, CommitRefreshRotation, CreateAuthorization;
    ServerParts(d, e);
    PlanIsKnown(d, e, step);
    var plan, policy := e.pending[step.i].plan, d.config.statePolicy;
    if plan.PlanBegin? {
      BeginAnswers(d, e.w, e.ledger.registered, e.drawn, e.pending.Keys, step.i, plan, step.pruneAt, policy);
    } else {
      CommitAnswers(d, e.w, e.ledger.registered, e.drawn, e.pending.Keys, step.i, plan, step.pruneAt, step.now);
    }
  }

  lemma BeginAnswers(d: Deployment, w: World, registered: map<ClientID, Client>, drawn: map<string, nat>,
                     pending: set<nat>, i: nat, plan: Plan, pruneAt: Time, policy: StatePolicy)
    requires plan.PlanBegin? && SecretsStored(w.past, drawn, pending) && i in pending
    requires PlanKnown(d, w.past, registered, drawn, i, plan)
    requires Inv(w, policy)
    ensures CreateAuthorization(Prune(w.store, pruneAt), plan.auth, policy).1
            == Verdict(Prune(w.store, pruneAt), plan, policy)
  {
    hide Inv, SecretsStored, AuthFact, PruneRefresh, PruneConsents, PruneCodes;
    KnownRows(w, policy);
    PendingIsFresh(w.past, drawn, pending, i, DigestCredential(plan.auth.token));
  }

  // -------------------------------------------------------------------------
  // Every revocation has a cause
  // -------------------------------------------------------------------------

  /** A step makes one store call, or none. */
  lemma StepIsCall(d: Deployment, e: Server, step: Step)
    requires Possible(e, step)
    requires ServerInv(d, e)
    ensures |Calls(d, e, step)| <= 1
    ensures Calls(d, e, step) == [] ==> After(d, e, step).w == e.w
    ensures Calls(d, e, step) != [] ==>
              && Enabled(e.w, Calls(d, e, step)[0], d.config.statePolicy)
              && After(d, e, step).w == Next(e.w, Calls(d, e, step)[0], d.config.statePolicy)
  {
    hide ServerInv, Possible, After, Calls, Legal, Run, Enabled, Next;
    AfterWorld(d, e, step);
    CallsAreLegal(d, e, step);
    AtMostOneCall(d, e, step);
    NoCalls(e.w, d.config.statePolicy);
    if Calls(d, e, step) != [] {
      assert Calls(d, e, step) == [Calls(d, e, step)[0]];
      OneCall(e.w, Calls(d, e, step)[0], d.config.statePolicy);
    }
  }

  lemma AtMostOneCall(d: Deployment, e: Server, step: Step)
    ensures |Calls(d, e, step)| <= 1
  {
    hide Engine.MetadataAccepted, CallOf, Touches, Committing;
  }

  ghost predicate NewlyRevoked(s: State, s': State, g: CredentialDigest) {
    && g in s.refresh && s.refresh[g].revokedAt == ZERO_TIME
    && g in s'.refresh && s'.refresh[g].revokedAt != ZERO_TIME
  }

  /** Only a revocation and a rotation that answers so revoke a grant, and then one of their own family. */
  lemma RevokingCall(s: State, call: Event, g: CredentialDigest, policy: StatePolicy)
    requires NewlyRevoked(s, Apply(s, call, policy).0, g)
    ensures || (call.Revoke? && call.family == s.refresh[g].familyID)
            || (call.Rotate? && Apply(s, call, policy).1 == Err(Revoked)
                && call.rotation.familyID == s.refresh[g].familyID)
  {
    hide Prune, Evict, RegisterClient, ActiveGrants, LoginBound, ConsentBound, ExchangeBound, SameFamily;
    hide CreateAuthorization, CommitLogin, CommitConsent, CommitCodeExchange, CommitRefreshRotation;
    if call.Register? || call.Touch? {
      RegisterKeepsGrants(s, call, policy);
    } else if !call.Revoke? {
      var p := Prune(s, call.pruneAt);
      PruneKeepsRowsOf(s, call.pruneAt);
      if Apply(s, call, policy).1.Err? {
        RefusalChangesNothingLive(s, call, policy);
      } else {
        match call
        case Create(auth, _) => CreateKeepsGrants(p, auth, policy);
        case Login(commit, _, now) => LoginAccepted(p, commit, policy, now);
        case Decide(commit, _, now) => ConsentAccepted(p, commit, policy, now);
        case Exchange(commit, _, now) => ExchangeAccepted(p, commit, policy, now);
        case Rotate(rotation, _, now) => RotationAccepted(p, rotation, policy, now);
        case Sweep(_) =>
      }
    }
  }

  /** A rotation answered revoked met a spent or revoked grant, or the generation limit. */
  lemma RevokedRotation(p: State, r: Rotation, policy: StatePolicy, now: Time)
    requires CommitRefreshRotation(p, r, policy, now).1 == Err(Revoked)
    ensures r.current in p.refresh && p.refresh[r.current].familyID == r.familyID
    ensures !p.refresh[r.current].Active() || r.successor.generation >= policy.capacity.maxRefreshGenerations
  {
    hide IsSubsetOf, RevokeFamily;
  }

  lemma RotationRevokesSpent(w: World, r: Rotation, pruneAt: Time, now: Time, g: CredentialDigest, policy: StatePolicy)
    requires Apply(w.store, Rotate(r, pruneAt, now), policy).1 == Err(Revoked)
    requires g in w.store.refresh && w.store.refresh[g].revokedAt == ZERO_TIME
             && w.store.refresh[g].familyID == r.familyID
    requires Inv(w, policy)
    ensures Spent(w, RefreshToken(r.current)) || r.successor.generation >= policy.capacity.maxRefreshGenerations
  {
    hide Inv, Prune, CommitRefreshRotation, Dead;
    PruneKeepsRowsOf(w.store, pruneAt);
    RevokedRotation(Prune(w.store, pruneAt), r, policy, now);
    KnownRows(w, policy);
    if w.store.refresh[r.current].revokedAt != ZERO_TIME {
      RevokedIsDead(w, r.current, policy);
      NotDead(w, r.familyID, g);
    }
  }

  lemma NotDead(w: World, family: RefreshFamilyID, g: CredentialDigest)
    requires g in w.store.refresh && w.store.refresh[g].revokedAt == ZERO_TIME && w.store.refresh[g].familyID == family
    ensures !Dead(w, family)
  {
  }

  lemma ReplayedTokenIsSpent(w: World, family: RefreshFamilyID, cause: Cause, policy: StatePolicy)
    requires cause.Replay? && CauseKnown(w.past, family, cause)
    requires Inv(w, policy)
    ensures Spent(w, RefreshToken(cause.token))
  {
    hide CredentialInv, WholeFamilies, Retained, ActiveGrants, Chained, Related, GenerationsBounded;
  }

  /**
   The cause of a revocation: a request by the client of a token of the family that presented
   it after it had been spent, for a principal found ineligible, or to withdraw it; or a
   rotation of that token, spent meanwhile or of the last generation allowed.
   */
  ghost predicate HasCause(d: Deployment, e: Server, step: Step, family: RefreshFamilyID) {
    && Committing(e, step) && !step.fault
    && var plan, r := e.pending[step.i].plan, e.pending[step.i].request;
    && OwnToken(e.w.past, r, family)
    && (|| (&& plan.PlanRevoke? && plan.family == family
            && (plan.cause.Withdrawal? <==> r.Withdraw?)
            && (plan.cause.Replay? ==> Spent(e.w, RefreshToken(DigestCredential(r.presented))))
            && (plan.cause.Disqualified? ==> Ineligibly(r.renewal)))
        || (&& plan.PlanRotate? && r.Renew? && Answer(d, e, step) == Err(Revoked)
            && (Spent(e.w, RefreshToken(DigestCredential(r.presented))) || AtLimit(plan, d.config.statePolicy))))
  }

  /** The request presents a token of the family, and was made by the client that the token was given to. */
  ghost predicate OwnToken(past: Past, r: Request, family: RefreshFamilyID) {
    && (r.Renew? || r.Withdraw?) && DigestCredential(r.presented) in past.grants
    && var g := past.grants[DigestCredential(r.presented)];
    && g.familyID == family && NewIdentifier(r.clientID) == Some(g.clientID)
  }

  lemma RevocationFits(d: Deployment, past: Past, registered: map<ClientID, Client>, drawn: map<string, nat>, i: nat,
                       r: Request, plan: Plan)
    requires plan.PlanRevoke? && PlanKnown(d, past, registered, drawn, i, plan)
    requires PlanFits(d, past, registered, r, plan)
    ensures OwnToken(past, r, plan.family) && (plan.cause.Withdrawal? <==> r.Withdraw?)
    ensures plan.cause.token == DigestCredential(r.presented) && CauseKnown(past, plan.family, plan.cause)
    ensures plan.cause.Disqualified? ==> Ineligibly(r.renewal)
  {
    hide NewIdentifier;
  }

  lemma RotationFits(d: Deployment, past: Past, registered: map<ClientID, Client>, drawn: map<string, nat>, i: nat,
                     r: Request, plan: Plan)
    requires plan.PlanRotate? && PlanKnown(d, past, registered, drawn, i, plan)
    requires PlanFits(d, past, registered, r, plan)
    ensures OwnToken(past, r, plan.rotation.familyID) && r.Renew?
    ensures plan.rotation.current == DigestCredential(r.presented)
  {
    hide NewIdentifier, SuccessorFits, ResponseFits, IsSubsetOf;
  }

  lemma RevokingCallIsCommit(d: Deployment, e: Server, step: Step)
    requires Calls(d, e, step) != []
    requires Calls(d, e, step)[0].Revoke? || Calls(d, e, step)[0].Rotate?
    ensures Committing(e, step) && !step.fault
    ensures Calls(d, e, step)[0] == CallOf(e.pending[step.i].plan, step.pruneAt, step.now)
  {
    hide Engine.MetadataAccepted, CallOf;
  }

  lemma CauseOfStep(d: Deployment, e: Server, step: Step, g: CredentialDigest)
    requires NewlyRevoked(e.w.store, After(d, e, step).w.store, g) && Possible(e, step)
    requires ServerInv(d, e)
    ensures HasCause(d, e, step, e.w.store.refresh[g].familyID)
  {
    hide ServerInv, Inv, Possible, After, Calls, Enabled, Apply, Record, Spent, CauseKnown, SecretsStored;
    hide PlanKnown, PlanFits, OwnToken, Ineligibly;
    var policy := d.config.statePolicy;
    StepIsCall(d, e, step);
    ServerParts(d, e);
    var call := Calls(d, e, step)[0];
    RevokingCall(e.w.store, call, g, policy);
    RevokingCallIsCommit(d, e, step);
    PlanIsKnown(d, e, step);
    var plan, r := e.pending[step.i].plan, e.pending[step.i].request;
    if plan.PlanRevoke? {
      RevocationFits(d, e.w.past, e.ledger.registered, e.drawn, step.i, r, plan);
      if plan.cause.Replay? {
        ReplayedTokenIsSpent(e.w, plan.family, plan.cause, policy);
      }
    } else {
      assert plan.PlanRotate?;
      RotationFits(d, e.w.past, e.ledger.registered, e.drawn, step.i, r, plan);
      RotationRevokesSpent(e.w, plan.rotation, step.pruneAt, step.now, g, policy);
    }
  }

  /**
   In every run of the server, whatever other calls ran between its read and its commit, a
   step that newly revokes a stored grant is a commit with cause.
   */
  lemma EveryRevocationHasCause(d: Deployment, now: Time, steps: seq<Step>, i: nat, g: CredentialDigest)
    requires now > ZERO_TIME && ValidPolicy(d.config.statePolicy) && ServerLegal(d, Boot(now), steps)
    requires i < |steps|
    requires NewlyRevoked(At(d, now, steps, i).w.store, At(d, now, steps, i + 1).w.store, g)
    ensures HasCause(d, At(d, now, steps, i), steps[i], At(d, now, steps, i).w.store.refresh[g].familyID)
  {
    hide ServerInv, Possible, At, After, ServerLegal, ServerRun, HasCause;
    ServerRunStep(d, now, steps, i);
    CauseOfStep(d, At(d, now, steps, i), steps[i], g);
  }
}
