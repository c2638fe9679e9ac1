/**
 What the invariant of `StoreRuns` means for every run of the store: each credential is
 spent at most once, a refresh family is a chain with at most one active grant, revocation
 is final, and every grant traces back to one transaction.
 */
module StoreSafety {
  import opened Scopes
  import opened Model
  import opened Transitions
  import opened StoreSpec
  import opened StoreRuns

  // -------------------------------------------------------------------------
  // Runs compose
  // -------------------------------------------------------------------------

  lemma {:induction false} RunSplits(w: World, es: seq<Event>, i: nat, policy: StatePolicy)
    requires Legal(w, es, policy) && i <= |es|
    ensures Legal(w, es[..i], policy) && Legal(Run(w, es[..i], policy), es[i..], policy)
    ensures Run(w, es, policy) == Run(Run(w, es[..i], policy), es[i..], policy)
    decreases i
  {
    hide Enabled, Next;
    if i == 0 {
      assert es[0..] == es;
    } else {
      RunSplits(Next(w, es[0], policy), es[1..], i - 1, policy);
      assert es[..i][1..] == es[1..][..i - 1] && es[..i][0] == es[0];
      assert es[i..] == es[1..][i - 1..];
    }
  }

  /** The world in which event `i` of a run takes place. */
  ghost function Before(w: World, es: seq<Event>, i: nat, policy: StatePolicy): World
    requires i <= |es|
  {
    Run(w, es[..i], policy)
  }

  ghost predicate Succeeds(w: World, es: seq<Event>, i: nat, policy: StatePolicy)
    requires i < |es|
  {
    Apply(Before(w, es, i, policy).store, es[i], policy).1.Ok?
  }

  /** The run from event `i` to event `j`. */
  lemma RunBetween(w: World, es: seq<Event>, i: nat, j: nat, policy: StatePolicy)
    requires Legal(w, es, policy) && i <= j <= |es|
    ensures Legal(Before(w, es, i, policy), es[i..j], policy)
    ensures Before(w, es, j, policy) == Run(Before(w, es, i, policy), es[i..j], policy)
  {
    hide Enabled, Next;
    RunSplits(w, es, j, policy);
    RunSplits(w, es[..j], i, policy);
    assert es[..j][..i] == es[..i] && es[..j][i..] == es[i..j];
  }

  lemma RunStep(w: World, es: seq<Event>, i: nat, policy: StatePolicy)
    requires Legal(w, es, policy) && i < |es|
    ensures Enabled(Before(w, es, i, policy), es[i], policy)
    ensures Before(w, es, i + 1, policy) == Next(Before(w, es, i, policy), es[i], policy)
  {
    hide Enabled, Next;
    RunBetween(w, es, i, i + 1, policy);
    assert es[i..i + 1] == [es[i]];
  }

  lemma {:induction false} RunAges(w: World, es: seq<Event>, policy: StatePolicy)
    requires Legal(w, es, policy)
    ensures w.now <= Run(w, es, policy).now
    decreases |es|
  {
    hide Apply, Record;
    if es != [] {
      RunAges(Next(w, es[0], policy), es[1..], policy);
    }
  }

  lemma Reachable(now: Time, es: seq<Event>, i: nat, policy: StatePolicy)
    requires now > ZERO_TIME && ValidPolicy(policy) && Legal(Start(now), es, policy) && i <= |es|
    ensures Inv(Before(Start(now), es, i, policy), policy)
  {
    hide Inv, Enabled, Next, Start;
    StartHolds(now, policy);
    RunSplits(Start(now), es, i, policy);
    RunKeeps(Start(now), es[..i], policy);
  }

  // -------------------------------------------------------------------------
  // Records only advance
  // -------------------------------------------------------------------------

  ghost predicate AuthsAdvance(rows: Auths, rows': Auths, past: Auths) {
    forall d | d in rows' ::
      (d in rows && (rows[d].consumedAt != ZERO_TIME ==> rows'[d].consumedAt != ZERO_TIME)) || d !in past
  }

  ghost predicate ConsentsAdvance(rows: Consents, rows': Consents, past: Sessions) {
    forall d | d in rows' ::
      (d in rows && (rows[d].consumedAt != ZERO_TIME ==> rows'[d].consumedAt != ZERO_TIME)) || d !in past
  }

  ghost predicate CodesAdvance(rows: Codes, rows': Codes, past: Records) {
    forall d | d in rows' ::
      (d in rows && (rows[d].consumedAt != ZERO_TIME ==> rows'[d].consumedAt != ZERO_TIME)) || d !in past
  }

  ghost predicate GrantsAdvance(rows: Grants, rows': Grants, past: Grants) {
    forall d | d in rows' ::
      || (&& d in rows && rows'[d].familyID == rows[d].familyID
          && (rows[d].consumedAt != ZERO_TIME ==> rows'[d].consumedAt != ZERO_TIME)
          && (rows[d].revokedAt != ZERO_TIME ==> rows'[d].revokedAt != ZERO_TIME))
      || d !in past
  }

  ghost predicate Advance(s: State, s': State, past: Past) {
    && AuthsAdvance(s.authorizations, s'.authorizations, past.auths)
    && ConsentsAdvance(s.consents, s'.consents, past.consents)
    && CodesAdvance(s.codes, s'.codes, past.codes)
    && GrantsAdvance(s.refresh, s'.refresh, past.grants)
  }

  lemma PruneAdvances(s: State, t: Time, past: Past)
    ensures Advance(s, Prune(s, t), past)
  {
  }

  lemma RevokeAdvances(s: State, p: State, family: RefreshFamilyID, at: Time, past: Past)
    requires Advance(s, p, past)
    ensures Advance(s, RevokeFamily(p, family, at), past)
  {
    hide AuthsAdvance, ConsentsAdvance, CodesAdvance;
  }

  lemma CommitAdvances(w: World, p: State, e: Event, policy: StatePolicy)
    requires Advance(w.store, p, w.past) && w.now > ZERO_TIME && Enabled(w, e, policy)
    requires (e.Login? || e.Decide? || e.Exchange? || e.Rotate?) && p == Prune(w.store, e.pruneAt)
    requires Apply(w.store, e, policy).1.Ok?
    ensures Advance(w.store, Apply(w.store, e, policy).0, w.past)
  {
    hide Prune, LoginBound, ConsentBound, ExchangeBound, SameFamily, ActiveGrants;
    if e.Login? {
      hide CommitLogin, ConsentsAdvance, CodesAdvance, GrantsAdvance;
      LoginAccepted(p, e.login, policy, e.now);
      LoginAdvances(w, p, e, policy);
    } else if e.Decide? {
      hide CommitConsent, AuthsAdvance, ConsentsAdvance, CodesAdvance, GrantsAdvance;
      ConsentAccepted(p, e.decide, policy, e.now);
      DecideAdvances(w.store, p, w.past, e.decide, e.now);
    } else if e.Exchange? {
      hide CommitCodeExchange, AuthsAdvance, ConsentsAdvance;
      ExchangeAccepted(p, e.exchange, policy, e.now);
    } else {
      hide CommitRefreshRotation, AuthsAdvance, ConsentsAdvance, CodesAdvance;
      RotationAccepted(p, e.rotation, policy, e.now);
    }
  }

  lemma LoginAdvances(w: World, p: State, e: Event, policy: StatePolicy)
    requires e.Login? && Advance(w.store, p, w.past) && e.now != ZERO_TIME
    requires e.login.transaction in p.authorizations
    requires DigestCredential(e.login.consent.token) !in w.past.consents
    ensures AuthsAdvance(w.store.authorizations,
                         p.authorizations[e.login.transaction
                                          := p.authorizations[e.login.transaction].(consumedAt := e.now)],
                         w.past.auths)
    ensures ConsentsAdvance(w.store.consents,
                            p.consents[DigestCredential(e.login.consent.token) := e.login.consent], w.past.consents)
  {
    hide CodesAdvance, GrantsAdvance;
  }

  lemma DecideAdvances(s: State, p: State, past: Past, commit: ConsentCommit, now: Time)
    requires Advance(s, p, past) && now != ZERO_TIME && commit.consent in p.consents
    requires commit.decision == Approve ==> commit.code.digest !in past.codes
    ensures ConsentsAdvance(s.consents, p.consents[commit.consent := p.consents[commit.consent].(consumedAt := now)],
                            past.consents)
    ensures commit.decision == Approve ==>
              CodesAdvance(s.codes, p.codes[commit.code.digest := commit.code], past.codes)
  {
    hide AuthsAdvance, GrantsAdvance;
  }

  lemma StepAdvances(w: World, e: Event, policy: StatePolicy)
    requires w.now > ZERO_TIME && Enabled(w, e, policy)
    ensures Advance(w.store, Next(w, e, policy).store, w.past)
  {
    var outcome := Apply(w.store, e, policy).1;
    if e.Register? || e.Touch? {
      PruneAdvances(w.store, w.now, w.past);
    } else if e.Revoke? {
      RevokeAdvances(w.store, w.store, e.family, e.at, w.past);
    } else {
      var p := Prune(w.store, e.pruneAt);
      PruneAdvances(w.store, e.pruneAt, w.past);
      hide Prune, Advance;
      if outcome.Err? {
        hide CreateAuthorization, CommitLogin, CommitConsent, CommitCodeExchange, CommitRefreshRotation;
        RefusalChangesNothingLive(w.store, e, policy);
        if e.Rotate? {
          RevokeAdvances(w.store, p, e.rotation.familyID, e.now, w.past);
        }
      } else if e.Create? {
        CreateAdvances(w, p, e, policy);
      } else if !e.Sweep? {
        hide CommitLogin, CommitConsent, CommitCodeExchange, CommitRefreshRotation;
        CommitAdvances(w, p, e, policy);
      }
    }
  }

  lemma CreateAdvances(w: World, p: State, e: Event, policy: StatePolicy)
    requires e.Create? && Advance(w.store, p, w.past) && CreateAuthorization(p, e.auth, policy).1.Ok?
    requires DigestCredential(e.auth.token) !in w.past.auths
    ensures Advance(w.store, CreateAuthorization(p, e.auth, policy).0, w.past)
  {
    hide ConsentsAdvance, CodesAdvance, GrantsAdvance;
  }

  /** History is never lost: the record of what was inserted only grows, and chains only lengthen. */
  ghost predicate PastGrows(past: Past, past': Past) {
    && past.auths.Keys <= past'.auths.Keys
    && past.consents.Keys <= past'.consents.Keys
    && past.codes.Keys <= past'.codes.Keys
    && past.families.Keys <= past'.families.Keys
    && past.grants.Keys <= past'.grants.Keys
  }

  lemma StepGrows(w: World, e: Event, policy: StatePolicy)
    ensures PastGrows(w.past, Next(w, e, policy).past)
  {
    hide Apply;
  }

  // -------------------------------------------------------------------------
  // Every credential is spent at most once
  // -------------------------------------------------------------------------

  datatype Credential =
    | NoCredential
    | Transaction(digest: CredentialDigest)
    | Session(digest: CredentialDigest)
    | AuthCode(digest: CredentialDigest)
    | RefreshToken(digest: CredentialDigest)

  /** The credential a call presents to be spent. */
  function Presents(e: Event): Credential {
    match e
    case Login(commit, _, _) => Transaction(commit.transaction)
    case Decide(commit, _, _) => Session(commit.consent)
    case Exchange(commit, _, _) => AuthCode(commit.code)
    case Rotate(rotation, _, _) => RefreshToken(rotation.current)
    case _ => NoCredential
  }

  /** Issued once, and from now on either gone or marked consumed. */
  ghost predicate Spent(w: World, c: Credential) {
    match c
    case NoCredential => false
    case Transaction(d) =>
      d in w.past.auths && (d in w.store.authorizations ==> w.store.authorizations[d].consumedAt != ZERO_TIME)
    case Session(d) =>
      d in w.past.consents && (d in w.store.consents ==> w.store.consents[d].consumedAt != ZERO_TIME)
    case AuthCode(d) =>
      d in w.past.codes && (d in w.store.codes ==> w.store.codes[d].consumedAt != ZERO_TIME)
    case RefreshToken(d) =>
      d in w.past.grants && (d in w.store.refresh ==> w.store.refresh[d].consumedAt != ZERO_TIME)
  }

  lemma SpentStays(w: World, e: Event, c: Credential, policy: StatePolicy)
    requires w.now > ZERO_TIME && Enabled(w, e, policy) && Spent(w, c)
    ensures Spent(Next(w, e, policy), c)
  {
    hide Apply, Next, Enabled;
    StepAdvances(w, e, policy);
    StepGrows(w, e, policy);
  }

  lemma PruneKeepsRowsOf(s: State, t: Time)
    ensures forall d | d in Prune(s, t).authorizations ::
              d in s.authorizations && Prune(s, t).authorizations[d] == s.authorizations[d]
    ensures forall d | d in Prune(s, t).consents :: d in s.consents && Prune(s, t).consents[d] == s.consents[d]
    ensures forall d | d in Prune(s, t).codes :: d in s.codes && Prune(s, t).codes[d] == s.codes[d]
    ensures forall d | d in Prune(s, t).refresh :: d in s.refresh && Prune(s, t).refresh[d] == s.refresh[d]
  {
  }

  lemma SpentRefused(w: World, e: Event, policy: StatePolicy)
    requires Spent(w, Presents(e))
    ensures Apply(w.store, e, policy).1.Err?
  {
    PruneKeepsRowsOf(w.store, e.pruneAt);
    hide Prune, ActiveGrants, CommitLogin, CommitConsent, CommitCodeExchange, CommitRefreshRotation;
    hide LoginBound, ConsentBound, ExchangeBound, SameFamily;
    var p := Prune(w.store, e.pruneAt);
    if Apply(w.store, e, policy).1.Ok? {
      match e
      case Login(commit, _, now) => LoginAccepted(p, commit, policy, now);
      case Decide(commit, _, now) => ConsentAccepted(p, commit, policy, now);
      case Exchange(commit, _, now) => ExchangeAccepted(p, commit, policy, now);
      case Rotate(rotation, _, now) => RotationAccepted(p, rotation, policy, now);
    }
  }

  lemma CommitTimes(w: World, e: Event, policy: StatePolicy)
    requires Enabled(w, e, policy) && Presents(e) != NoCredential
    ensures w.now <= e.pruneAt <= e.now
  {
  }

  /** The presented record was stored and is marked consumed afterwards. */
  ghost predicate Marked(s: State, s': State, c: Credential) {
    match c
    case NoCredential => true
    case Transaction(d) =>
      d in s.authorizations && d in s'.authorizations && s'.authorizations[d].consumedAt != ZERO_TIME
    case Session(d) => d in s.consents && d in s'.consents && s'.consents[d].consumedAt != ZERO_TIME
    case AuthCode(d) => d in s.codes && d in s'.codes && s'.codes[d].consumedAt != ZERO_TIME
    case RefreshToken(d) => d in s.refresh && d in s'.refresh && s'.refresh[d].consumedAt != ZERO_TIME
  }

  lemma SuccessMarks(s: State, e: Event, policy: StatePolicy)
    requires Apply(s, e, policy).1.Ok? && Presents(e) != NoCredential && e.now > ZERO_TIME
    ensures Marked(s, Apply(s, e, policy).0, Presents(e))
  {
    PruneKeepsRowsOf(s, e.pruneAt);
    hide Prune, ActiveGrants, CommitLogin, CommitConsent, CommitCodeExchange, CommitRefreshRotation;
    hide LoginBound, ConsentBound, ExchangeBound, SameFamily;
    var p := Prune(s, e.pruneAt);
    if e.Login? {
      LoginAccepted(p, e.login, policy, e.now);
    } else if e.Decide? {
      ConsentAccepted(p, e.decide, policy, e.now);
    } else if e.Exchange? {
      ExchangeAccepted(p, e.exchange, policy, e.now);
    } else {
      RotationAccepted(p, e.rotation, policy, e.now);
    }
  }

  lemma SuccessSpends(w: World, e: Event, policy: StatePolicy)
    requires Inv(w, policy) && Enabled(w, e, policy)
    requires Apply(w.store, e, policy).1.Ok? && Presents(e) != NoCredential
    ensures Spent(Next(w, e, policy), Presents(e))
  {
    hide Inv, Apply, Record, Enabled;
    KnownRows(w, policy);
    CommitTimes(w, e, policy);
    SuccessMarks(w.store, e, policy);
    StepGrows(w, e, policy);
  }

  lemma KnownRows(w: World, policy: StatePolicy)
    requires Inv(w, policy)
    ensures w.now > ZERO_TIME
    ensures w.store.authorizations.Keys <= w.past.auths.Keys
    ensures w.store.consents.Keys <= w.past.consents.Keys
    ensures w.store.codes.Keys <= w.past.codes.Keys
    ensures w.store.refresh.Keys <= w.past.grants.Keys
  {
    hide FamiliesInv, WholeFamilies, Retained, TransactionsSpent, ConsentsSpent, CodesSpent, ActiveGrants;
  }

  lemma {:induction false} SpentThroughRun(w: World, es: seq<Event>, c: Credential, policy: StatePolicy)
    requires Inv(w, policy) && ValidPolicy(policy) && Legal(w, es, policy) && Spent(w, c)
    ensures Spent(Run(w, es, policy), c)
    decreases |es|
  {
    NowIsSet(w, policy);
    hide Inv, Enabled, Next, Spent;
    if es != [] {
      SpentStays(w, es[0], c, policy);
      StepKeeps(w, es[0], policy);
      SpentThroughRun(Next(w, es[0], policy), es[1..], c, policy);
    }
  }

  /**
   In any run, of all the calls that present one credential at most one succeeds: a
   transaction yields one consent, a consent one decision, a code one family, a refresh
   token one successor.
   */
  lemma CredentialSpentOnce(now: Time, es: seq<Event>, i: nat, j: nat, policy: StatePolicy)
    requires now > ZERO_TIME && ValidPolicy(policy) && Legal(Start(now), es, policy)
    requires i < j < |es| && Presents(es[i]) == Presents(es[j]) != NoCredential
    requires Succeeds(Start(now), es, i, policy)
    ensures !Succeeds(Start(now), es, j, policy)
  {
    var start := Start(now);
    hide Inv, Enabled, Next, Spent, Apply, Start;
    Reachable(now, es, i, policy);
    Reachable(now, es, i + 1, policy);
    RunStep(start, es, i, policy);
    SuccessSpends(Before(start, es, i, policy), es[i], policy);
    RunBetween(start, es, i + 1, j, policy);
    SpentThroughRun(Before(start, es, i + 1, policy), es[i + 1..j], Presents(es[i]), policy);
    SpentRefused(Before(start, es, j, policy), es[j], policy);
  }
}
