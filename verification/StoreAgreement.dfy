/**
 The two stores simulate each other. They agree when they are equal after pruning at the
 current time and forgetting tokens: the memory store keeps the prune of a refused call,
 the SQLite store rolls it back. Where the texts that are compared order as their instants,
 a call that finds them agreeing leaves them agreeing, and is answered alike by both, exactly
 unless its second clock reading in the memory store undoes what its first one decided, or a
 registration evicts a client in vain.
 */
module StoreAgreement {
  import opened Scopes
  import opened Model
  import opened TextOrder
  import opened Timestamps
  import opened Transitions
  import opened StoreSpec
  import opened SqliteStore
  import opened Readings

  ghost predicate Agree(memory: State, durable: State, now: Time) {
    Prune(Blank(memory), now) == Prune(durable, now)
  }

  /** Comparing the texts of a stored instant and a cutoff is comparing the instants. */
  predicate Exact(stored: Time, cutoff: Time) {
    StampAtMost(stored, cutoff) <==> stored <= cutoff
  }

  /** Equal, in different seconds, or with a cutoff before the zero time. */
  predicate Apart(stored: Time, cutoff: Time) {
    && stored >= 0
    && (|| cutoff < 0 || stored == cutoff
        || (stored / SECOND < cutoff / SECOND && Representable(cutoff))
        || (stored / SECOND > cutoff / SECOND && Representable(stored)))
  }

  /** Only inside one second can the texts be out of order. */
  lemma ApartIsExact(stored: Time, cutoff: Time)
    requires Apart(stored, cutoff)
    ensures Exact(stored, cutoff)
  {
    if cutoff < 0 {
      AfterNoStamp(stored, cutoff);
    } else if stored / SECOND < cutoff / SECOND {
      OrderAcrossSeconds(stored, cutoff);
    } else if stored / SECOND > cutoff / SECOND {
      OrderAcrossSeconds(cutoff, stored);
    }
  }

  lemma AfterNoStamp(a: Time, b: Time)
    requires a >= 0 > b
    ensures !StampAtMost(a, b)
  {
    hide DateText, FractionDigits;
    assert |Format(a)| > 0;
  }

  /** Every comparison that a prune at `now` makes is exact. */
  ghost predicate RowsExact(t: Tables, now: Time) {
    && (forall d | d in t.authorizations :: Exact(t.authorizations[d].payload.expiresAt, now))
    && (forall d | d in t.consents :: Exact(t.consents[d].payload.expiresAt, now))
    && (forall d | d in t.codes :: Exact(t.codes[d].payload.expiresAt, now))
    && (forall d | d in t.refresh :: Exact(t.refresh[d].payload.expiresAt, now))
  }

  /** And every comparison that an eviction at `now` makes. */
  ghost predicate Timed(t: Tables, policy: RegistrationPolicy, now: Time) {
    && RowsExact(t, now)
    && (forall id | id in t.clients :: Exact(t.clients[id].lastUsedAt, now - policy.unverifiedClientTTL))
  }

  /** Transactions, consents and codes were inserted unspent, as the engine builds them. */
  ghost predicate InsertedUnspent(t: Tables) {
    && (forall d | d in t.authorizations :: t.authorizations[d].payload.consumedAt == ZERO_TIME)
    && (forall d | d in t.consents :: t.consents[d].payload.consumedAt == ZERO_TIME)
    && (forall d | d in t.codes :: t.codes[d].payload.consumedAt == ZERO_TIME)
  }

  // -------------------------------------------------------------------------
  // Pruning by text is pruning by time
  // -------------------------------------------------------------------------

  lemma AuthorizationRowsView(t: Tables, now: Time)
    requires forall d | d in t.authorizations :: StampAtMost(t.authorizations[d].payload.expiresAt, now)
                                                 <==> t.authorizations[d].payload.expiresAt <= now
    ensures View(PruneTx(t, now)).authorizations == PruneAuthorizations(View(t).authorizations, now)
  {
    hide StampAtMost, ViewClients, ViewConsents, ViewCodes, ViewGrants, PruneGrantRows;
  }

  lemma ConsentRowsView(t: Tables, now: Time)
    requires forall d | d in t.consents :: StampAtMost(t.consents[d].payload.expiresAt, now)
                                           <==> t.consents[d].payload.expiresAt <= now
    ensures View(PruneTx(t, now)).consents == PruneConsents(View(t).consents, now)
  {
    hide StampAtMost, ViewClients, ViewAuthorizations, ViewCodes, ViewGrants, PruneGrantRows;
  }

  lemma CodeRowsView(t: Tables, now: Time)
    requires forall d | d in t.codes :: StampAtMost(t.codes[d].payload.expiresAt, now)
                                        <==> t.codes[d].payload.expiresAt <= now
    ensures View(PruneTx(t, now)).codes == PruneCodes(View(t).codes, now)
  {
    hide StampAtMost, ViewClients, ViewAuthorizations, ViewConsents, ViewGrants, PruneGrantRows;
  }

  lemma PruneTxView(t: Tables, now: Time)
    requires Sound(t) && RowsExact(t, now) && now >= 0
    ensures View(PruneTx(t, now)) == Prune(View(t), now)
  {
    hide StampAtMost, AuthorizationsSound, ConsentsSound, CodesSound, GrantsSound;
    hide FamilyDone, FamilyLive, PruneGrantRows, PruneRefresh, PruneAuthorizations, PruneConsents, PruneCodes;
    hide ViewAuthorizations, ViewConsents, ViewCodes, ViewGrants, ViewClients;
    AuthorizationRowsView(t, now);
    ConsentRowsView(t, now);
    CodeRowsView(t, now);
    GrantRowsView(t.refresh, now);
  }

  /**
   Whatever the instants, the prune keeps every row that lasts a second longer, and every row
   of a family with such a row, and leaves none that ran out a second ago, nor a family all
   of whose rows did.
   */
  lemma PruneTxWithinSecond(t: Tables, now: Time)
    requires Representable(now)
    requires forall d | d in t.authorizations :: Representable(t.authorizations[d].payload.expiresAt)
    requires forall d | d in t.consents :: Representable(t.consents[d].payload.expiresAt)
    requires forall d | d in t.codes :: Representable(t.codes[d].payload.expiresAt)
    requires forall d | d in t.refresh :: Representable(t.refresh[d].payload.expiresAt)
    ensures forall d | d in t.authorizations ::
              && (t.authorizations[d].payload.expiresAt >= now + SECOND ==> d in PruneTx(t, now).authorizations)
              && (d in PruneTx(t, now).authorizations ==> t.authorizations[d].payload.expiresAt > now - SECOND)
    ensures forall d | d in t.consents ::
              && (t.consents[d].payload.expiresAt >= now + SECOND ==> d in PruneTx(t, now).consents)
              && (d in PruneTx(t, now).consents ==> t.consents[d].payload.expiresAt > now - SECOND)
    ensures forall d | d in t.codes ::
              && (t.codes[d].payload.expiresAt >= now + SECOND ==> d in PruneTx(t, now).codes)
              && (d in PruneTx(t, now).codes ==> t.codes[d].payload.expiresAt > now - SECOND)
    ensures forall d, e | d in t.refresh && e in t.refresh && t.refresh[e].familyID == t.refresh[d].familyID ::
              t.refresh[e].payload.expiresAt >= now + SECOND ==> d in PruneTx(t, now).refresh
    ensures forall d | d in PruneTx(t, now).refresh ::
              exists e :: && e in t.refresh && t.refresh[e].familyID == t.refresh[d].familyID
                          && t.refresh[e].payload.expiresAt > now - SECOND
  {
    hide Format, DateFields;
    forall x | Representable(x)
      ensures StampAtMost(x, now) ==> x < now + SECOND
      ensures !StampAtMost(x, now) ==> x > now - SECOND
    {
      PruneWithinSecond(x, now);
    }
    hide StampAtMost, Representable;
  }

  lemma GrantRowsView(rows: map<CredentialDigest, GrantRow>, now: Time)
    requires GrantsSound(rows) && now >= 0
    requires forall d | d in rows :: StampAtMost(rows[d].payload.expiresAt, now) <==> rows[d].payload.expiresAt <= now
    ensures ViewGrants(PruneGrantRows(rows, now)) == PruneRefresh(ViewGrants(rows), now)
  {
    hide StampAtMost;
    var view := ViewGrants(rows);
    forall d | d in rows
      ensures FamilyDone(rows, rows[d].familyID, now) <==> !FamilyLive(view, view[d].familyID, now)
    {
      if !FamilyDone(rows, rows[d].familyID, now) {
        var e :| e in rows && rows[e].familyID == rows[d].familyID && !StampAtMost(rows[e].payload.expiresAt, now);
        assert e in view && view[e].expiresAt > now;
      }
    }
  }

  lemma PruneClientsView(t: Tables, policy: RegistrationPolicy, now: Time)
    requires Sound(t) && Timed(t, policy, now) && InsertedUnspent(t)
    ensures View(PruneClientsTx(t, policy, now)) == Evict(View(t), policy, now)
  {
    hide Protected, HasLiveState, StampAtMost, Sound, InsertedUnspent, RowsExact;
    hide ViewAuthorizations, ViewConsents, ViewCodes, ViewGrants;
    forall id | id in t.clients
      ensures Protected(t, id, now) <==> HasLiveState(View(t), id, now)
    {
      ProtectedIsLive(t, id, now);
    }
    assert View(PruneClientsTx(t, policy, now)).clients == Evict(View(t), policy, now).clients;
  }

  lemma ProtectedIsLive(t: Tables, id: ClientID, now: Time)
    requires Sound(t) && RowsExact(t, now) && InsertedUnspent(t)
    ensures Protected(t, id, now) <==> HasLiveState(View(t), id, now)
  {
    hide StampAtMost, AuthorizationsSound, ConsentsSound, CodesSound, GrantsSound, InsertedUnspent;
    hide ViewAuthorizations, ViewConsents, ViewCodes, ViewGrants;
    AuthorizationsProtected(t, id, now);
    ConsentsProtected(t, id, now);
    CodesProtected(t, id, now);
    GrantsProtected(t, id, now);
  }

  lemma AuthorizationsProtected(t: Tables, id: ClientID, now: Time)
    requires Sound(t) && InsertedUnspent(t)
    requires forall d | d in t.authorizations :: StampAtMost(t.authorizations[d].payload.expiresAt, now)
                                                 <==> t.authorizations[d].payload.expiresAt <= now
    ensures (exists d | d in t.authorizations :: t.authorizations[d].payload.clientID == id
               && t.authorizations[d].consumedAt.None? && !StampAtMost(t.authorizations[d].payload.expiresAt, now))
        <==> exists d :: d in View(t).authorizations && LiveAuthorization(View(t).authorizations[d], id, now)
  {
    hide StampAtMost;
    if d :| d in View(t).authorizations && LiveAuthorization(View(t).authorizations[d], id, now) {
      assert d in t.authorizations && t.authorizations[d].consumedAt.None?;
    }
    if d :| d in t.authorizations && t.authorizations[d].payload.clientID == id
            && t.authorizations[d].consumedAt.None? && !StampAtMost(t.authorizations[d].payload.expiresAt, now) {
      assert LiveAuthorization(View(t).authorizations[d], id, now);
    }
  }

  lemma ConsentsProtected(t: Tables, id: ClientID, now: Time)
    requires Sound(t) && InsertedUnspent(t)
    requires forall d | d in t.consents :: StampAtMost(t.consents[d].payload.expiresAt, now)
                                           <==> t.consents[d].payload.expiresAt <= now
    ensures (exists d | d in t.consents :: t.consents[d].payload.client.id == id
               && t.consents[d].consumedAt.None? && !StampAtMost(t.consents[d].payload.expiresAt, now))
        <==> exists d :: d in View(t).consents && LiveConsent(View(t).consents[d], id, now)
  {
    hide StampAtMost;
    if d :| d in View(t).consents && LiveConsent(View(t).consents[d], id, now) {
      assert d in t.consents && t.consents[d].consumedAt.None?;
    }
    if d :| d in t.consents && t.consents[d].payload.client.id == id
            && t.consents[d].consumedAt.None? && !StampAtMost(t.consents[d].payload.expiresAt, now) {
      assert LiveConsent(View(t).consents[d], id, now);
    }
  }

  lemma CodesProtected(t: Tables, id: ClientID, now: Time)
    requires Sound(t) && InsertedUnspent(t)
    requires forall d | d in t.codes :: StampAtMost(t.codes[d].payload.expiresAt, now)
                                        <==> t.codes[d].payload.expiresAt <= now
    ensures (exists d | d in t.codes :: t.codes[d].payload.clientID == id
               && t.codes[d].consumedAt.None? && !StampAtMost(t.codes[d].payload.expiresAt, now))
        <==> exists d :: d in View(t).codes && LiveCode(View(t).codes[d], id, now)
  {
    hide StampAtMost;
    if d :| d in View(t).codes && LiveCode(View(t).codes[d], id, now) {
      assert d in t.codes && t.codes[d].consumedAt.None?;
    }
    if d :| d in t.codes && t.codes[d].payload.clientID == id
            && t.codes[d].consumedAt.None? && !StampAtMost(t.codes[d].payload.expiresAt, now) {
      assert LiveCode(View(t).codes[d], id, now);
    }
  }

  lemma GrantsProtected(t: Tables, id: ClientID, now: Time)
    requires Sound(t)
    requires forall d | d in t.refresh :: StampAtMost(t.refresh[d].payload.expiresAt, now)
                                          <==> t.refresh[d].payload.expiresAt <= now
    ensures (exists d | d in t.refresh :: t.refresh[d].payload.clientID == id
               && t.refresh[d].revokedAt.None? && !StampAtMost(t.refresh[d].payload.expiresAt, now))
        <==> exists d :: d in View(t).refresh && LiveGrant(View(t).refresh[d], id, now)
  {
    hide StampAtMost;
    if d :| d in View(t).refresh && LiveGrant(View(t).refresh[d], id, now) {
      assert d in t.refresh && t.refresh[d].revokedAt.None?;
    }
    if d :| d in t.refresh && t.refresh[d].payload.clientID == id
            && t.refresh[d].revokedAt.None? && !StampAtMost(t.refresh[d].payload.expiresAt, now) {
      assert LiveGrant(View(t).refresh[d], id, now);
    }
  }

  // -------------------------------------------------------------------------
  // Forgetting tokens changes no outcome
  // -------------------------------------------------------------------------

  lemma BlankKeys(s: State)
    ensures BlankAuthorizations(s.authorizations).Keys == s.authorizations.Keys
    ensures BlankConsents(s.consents).Keys == s.consents.Keys
    ensures |BlankAuthorizations(s.authorizations)| == |s.authorizations|
    ensures |BlankConsents(s.consents)| == |s.consents|
    ensures forall d | d in s.authorizations ::
              BlankAuthorizations(s.authorizations)[d] == s.authorizations[d].(token := "")
    ensures forall d | d in s.consents :: BlankConsents(s.consents)[d] == s.consents[d].(token := "")
  {
    SameSize(BlankAuthorizations(s.authorizations), s.authorizations);
    SameSize(BlankConsents(s.consents), s.consents);
  }

  lemma BlankTwice(s: State)
    ensures Blank(Blank(s)) == Blank(s)
  {
  }

  lemma CreateBlank(q: State, auth: Authorization, policy: StatePolicy)
    ensures var a, b := CreateAuthorization(Blank(q), auth, policy), CreateAuthorization(q, auth, policy);
            a.1 == b.1 && Blank(a.0) == Blank(b.0)
  {
    hide BlankAuthorizations, BlankConsents;
    BlankKeys(q);
    BlankTwice(q);
    var d := DigestCredential(auth.token);
    PutBlankAuthorization(q.authorizations, d, auth);
    PutBlankAuthorization(BlankAuthorizations(q.authorizations), d, auth);
  }

  lemma LoginIgnoresToken(auth: Authorization, consent: Consent, now: Time)
    ensures ValidateLoginCommit(auth.(token := ""), consent, now) == ValidateLoginCommit(auth, consent, now)
  {
  }

  lemma LoginBlank(q: State, commit: LoginCommit, policy: StatePolicy, now: Time)
    ensures var a, b := CommitLogin(Blank(q), commit, policy, now), CommitLogin(q, commit, policy, now);
            a.1 == b.1 && Blank(a.0) == Blank(b.0)
  {
    hide BlankAuthorizations, BlankConsents, ValidateLoginCommit;
    BlankKeys(q);
    BlankTwice(q);
    if commit.transaction in q.authorizations {
      LoginIgnoresToken(q.authorizations[commit.transaction], commit.consent, now);
      var d := DigestCredential(commit.consent.token);
      var spent := q.authorizations[commit.transaction].(consumedAt := now);
      PutBlankAuthorization(q.authorizations, commit.transaction, spent);
      PutBlankAuthorization(BlankAuthorizations(q.authorizations), commit.transaction, spent.(token := ""));
      PutBlankConsent(q.consents, d, commit.consent);
      PutBlankConsent(BlankConsents(q.consents), d, commit.consent);
    }
  }

  lemma VerdictIgnoresToken(consent: Consent, commit: ConsentCommit, now: Time)
    ensures ValidateConsentCommit(consent.(token := ""), commit, now) == ValidateConsentCommit(consent, commit, now)
  {
  }

  lemma DecideOutcomeBlank(q: State, commit: ConsentCommit, policy: StatePolicy, now: Time)
    ensures CommitConsent(Blank(q), commit, policy, now).1 == CommitConsent(q, commit, policy, now).1
  {
    hide BlankAuthorizations, BlankConsents, ValidateConsentCommit;
    BlankKeys(q);
    if commit.consent in q.consents {
      VerdictIgnoresToken(q.consents[commit.consent], commit, now);
    }
  }

  lemma DecideShape(p: State, commit: ConsentCommit, policy: StatePolicy, now: Time)
    ensures var a := CommitConsent(p, commit, policy, now);
            && (a.1.Ok? ==> commit.consent in p.consents)
            && a.0 == if a.1.Ok?
                      then p.(consents := p.consents[commit.consent := p.consents[commit.consent].(consumedAt := now)],
                              codes := if commit.decision == Approve
                                       then p.codes[commit.code.digest := commit.code] else p.codes)
                      else p
  {
  }

  lemma DecideBlank(q: State, commit: ConsentCommit, policy: StatePolicy, now: Time)
    ensures var a, b := CommitConsent(Blank(q), commit, policy, now), CommitConsent(q, commit, policy, now);
            a.1 == b.1 && Blank(a.0) == Blank(b.0)
  {
    hide BlankAuthorizations, BlankConsents, CommitConsent;
    DecideOutcomeBlank(q, commit, policy, now);
    DecideShape(q, commit, policy, now);
    DecideShape(Blank(q), commit, policy, now);
    BlankKeys(q);
    BlankTwice(q);
    if commit.consent in q.consents {
      var spent := q.consents[commit.consent].(consumedAt := now);
      PutBlankConsent(q.consents, commit.consent, spent);
      PutBlankConsent(BlankConsents(q.consents), commit.consent, spent.(token := ""));
    }
  }

  lemma ExchangeBlank(q: State, commit: ExchangeCommit, policy: StatePolicy, now: Time)
    ensures var a, b := CommitCodeExchange(Blank(q), commit, policy, now), CommitCodeExchange(q, commit, policy, now);
            a.1 == b.1 && Blank(a.0) == Blank(b.0)
  {
    hide BlankAuthorizations, BlankConsents, ValidateCodeExchangeCommit, ActiveGrants;
    BlankTwice(q);
  }

  lemma BlankRefresh(s: State, rows: map<CredentialDigest, Grant>)
    ensures Blank(Blank(s).(refresh := rows)) == Blank(s.(refresh := rows)) && Blank(s).refresh == s.refresh
  {
    hide BlankAuthorizations, BlankConsents;
    BlankTwice(s);
  }

  lemma RotateBlank(q: State, rotation: Rotation, policy: StatePolicy, now: Time)
    ensures var a, b := CommitRefreshRotation(Blank(q), rotation, policy, now),
                        CommitRefreshRotation(q, rotation, policy, now);
            a.1 == b.1 && Blank(a.0) == Blank(b.0)
  {
    hide Blank, ValidateRefreshRotation, RevokeRows;
    BlankTwice(q);
    forall rows: map<CredentialDigest, Grant>
      ensures Blank(Blank(q).(refresh := rows)) == Blank(q.(refresh := rows))
    {
      BlankRefresh(q, rows);
    }
    BlankRefresh(q, q.refresh);
  }

  lemma RevokeBlank(q: State, family: RefreshFamilyID, at: Time)
    ensures Blank(RevokeFamily(q, family, at)) == RevokeFamily(Blank(q), family, at)
  {
  }

  /** The commits of the specification, on a pruned state. */
  ghost function Commit(p: State, e: Event, policy: StatePolicy): (State, Outcome)
    requires !e.Register? && !e.Touch? && !e.Revoke?
  {
    match e
    case Create(auth, _) => CreateAuthorization(p, auth, policy)
    case Login(commit, _, now) => CommitLogin(p, commit, policy, now)
    case Decide(commit, _, now) => CommitConsent(p, commit, policy, now)
    case Exchange(commit, _, now) => CommitCodeExchange(p, commit, policy, now)
    case Rotate(rotation, _, now) => CommitRefreshRotation(p, rotation, policy, now)
    case Sweep(_) => (p, Ok)
  }

  lemma CommitBlank(q: State, e: Event, policy: StatePolicy)
    requires !e.Register? && !e.Touch? && !e.Revoke?
    ensures Commit(Blank(q), e, policy).1 == Commit(q, e, policy).1
    ensures Blank(Commit(Blank(q), e, policy).0) == Blank(Commit(q, e, policy).0)
  {
    hide Blank, CreateAuthorization, CommitLogin, CommitConsent, CommitCodeExchange, CommitRefreshRotation;
    BlankTwice(q);
    match e
    case Create(auth, _) => CreateBlank(q, auth, policy);
    case Login(commit, _, now) => LoginBlank(q, commit, policy, now);
    case Decide(commit, _, now) => DecideBlank(q, commit, policy, now);
    case Exchange(commit, _, now) => ExchangeBlank(q, commit, policy, now);
    case Rotate(rotation, _, now) => RotateBlank(q, rotation, policy, now);
    case Sweep(_) =>
  }

  lemma CommitRefused(q: State, e: Event, policy: StatePolicy)
    requires !e.Register? && !e.Touch? && !e.Revoke?
    ensures Commit(q, e, policy).1.Err? && !(e.Rotate? && Commit(q, e, policy).1 == Err(Revoked)) ==>
              Commit(q, e, policy).0 == q
  {
    hide ValidateLoginCommit, ValidateConsentCommit, ValidateCodeExchangeCommit, ActiveGrants;
  }

  // -------------------------------------------------------------------------
  // One call
  // -------------------------------------------------------------------------

  predicate ReadsClock(e: Event) {
    !e.Touch? && !e.Revoke?
  }

  /** What a call brings compares exactly with a later reading. */
  predicate RecordTimed(e: Event, policy: RegistrationPolicy, now: Time) {
    match e
    case Register(client, _) => Exact(client.lastUsedAt, now - policy.unverifiedClientTTL)
    case Touch(_, at) => Exact(at, now - policy.unverifiedClientTTL)
    case Create(auth, _) => Exact(auth.expiresAt, now)
    case Login(commit, _, _) => Exact(commit.consent.expiresAt, now)
    case Decide(commit, _, _) => commit.decision == Approve ==> Exact(commit.code.expiresAt, now)
    case Exchange(commit, _, _) => commit.refresh.Some? ==> Exact(commit.refresh.value.expiresAt, now)
    case Rotate(rotation, _, _) => Exact(rotation.successor.expiresAt, now)
    case Revoke(_, _) => true
    case Sweep(_) => true
  }

  /** What a call brings is unspent. */
  predicate RecordUnspent(e: Event) {
    match e
    case Create(auth, _) => auth.consumedAt == ZERO_TIME
    case Login(commit, _, _) => commit.consent.consumedAt == ZERO_TIME
    case Decide(commit, _, _) => commit.decision == Approve ==> commit.code.consumedAt == ZERO_TIME
    case _ => true
  }

  ghost predicate Comparable(memory: State, t: Tables, e: Event, policy: StatePolicy, now: Time) {
    && Sound(t) && InsertedUnspent(t)
    && 0 < now <= TimeAfter(e, now) && (ReadsTwice(e) ==> e.pruneAt <= e.now)
    && (ReadsClock(e) ==> Timed(t, policy.registration, TimeAfter(e, now)))
    && |memory.clients| <= policy.registration.maxClients
  }

  lemma AgreeLater(memory: State, durable: State, now: Time, u: Time)
    requires Agree(memory, durable, now) && now <= u
    ensures Agree(memory, durable, u)
  {
    hide Prune, Blank;
    PruneAbsorbs(Blank(memory), now, u);
    PruneAbsorbs(durable, now, u);
  }

  /** With one reading both stores commit on the same pruned state. */
  lemma CommitAtOnceAgrees(memory: State, t: Tables, t': Tables, r: Outcome, e: Event, policy: StatePolicy, now: Time)
    requires !e.Register? && !e.Touch? && !e.Revoke? && e == AtOnce(e)
    requires Agree(memory, View(t), now) && Performs(t, t', r, e, policy) && Comparable(memory, t, e, policy, now)
    ensures r == Apply(memory, e, policy).1
    ensures Agree(Apply(memory, e, policy).0, View(t'), TimeAfter(e, now))
  {
    hide Prune, Blank, View, PruneTx, Sound, RowsExact, InsertedUnspent;
    hide CreateAuthorization, CommitLogin, CommitConsent, CommitCodeExchange, CommitRefreshRotation;
    var u := TimeAfter(e, now);
    var q := Prune(memory, u);
    AgreeLater(memory, View(t), now, u);
    PruneTxView(t, u);
    BlankPrune(memory, u);
    assert View(PruneTx(t, u)) == Blank(q);
    assert Attempt(t, e, policy) == Commit(Blank(q), e, policy) && Apply(memory, e, policy) == Commit(q, e, policy);
    hide Attempt, Apply;
    CommitBlank(q, e, policy);
    CommitRefused(q, e, policy);
    hide Commit;
    if r.Ok? || (e.Rotate? && r == Err(Revoked)) {
      assert View(t') == Blank(Apply(memory, e, policy).0);
    } else {
      assert Apply(memory, e, policy).0 == q && t' == t;
      PruneAbsorbs(memory, u, u);
      BlankPrune(q, u);
    }
  }

  lemma OneReadingSuffices(t: Tables, t': Tables, r: Outcome, e: Event, policy: StatePolicy)
    requires Performs(t, t', r, e, policy)
    ensures Performs(t, t', r, AtOnce(e), policy)
  {
    hide View, Blank, PruneTx;
  }

  /**
   From agreeing states, a commit or sweep answers alike exactly unless something that its
   answer depends on expires between the memory store's two readings; and the stores agree
   afterwards exactly unless that makes one of them accept what the other refused.
   */
  lemma CommitAgrees(memory: State, t: Tables, t': Tables, r: Outcome, e: Event, policy: StatePolicy, now: Time)
    requires !e.Register? && !e.Touch? && !e.Revoke?
    requires Agree(memory, View(t), now) && Performs(t, t', r, e, policy) && Comparable(memory, t, e, policy, now)
    ensures r == Apply(memory, e, policy).1 <==> !AnswersDiffer(memory, e, policy)
    ensures Agree(Apply(memory, e, policy).0, View(t'), TimeAfter(e, now)) <==> !ReadingsDiverge(memory, e, policy)
  {
    hide Prune, Blank, View, Performs, Apply, AnswersDiffer, Sound, InsertedUnspent, Timed;
    var once := AtOnce(e);
    OneReadingSuffices(t, t', r, e, policy);
    CommitAtOnceAgrees(memory, t, t', r, once, policy, now);
    TwoReadings(memory, e, policy);
    if ReadsTwice(e) {
      hide ReadingsDiverge;
      assert TimeAfter(e, now) == e.now;
    }
  }

  lemma RevokeAgrees(memory: State, t: Tables, t': Tables, r: Outcome, e: Event, policy: StatePolicy, now: Time)
    requires e.Revoke? && Agree(memory, View(t), now) && Performs(t, t', r, e, policy)
    ensures r == Apply(memory, e, policy).1
    ensures Agree(Apply(memory, e, policy).0, View(t'), now)
  {
    hide Prune, Blank, View, RevokeFamily;
    RevokeBlank(memory, e.family, e.at);
    RevokeBlank(View(t), e.family, e.at);
    RevokePrune(Blank(memory), e.family, e.at, now);
    RevokePrune(View(t), e.family, e.at, now);
    BlankPrune(RevokeFamily(View(t), e.family, e.at), now);
    AgreeIsBlank(memory, View(t), now);
    RevokeBlank(Prune(View(t), now), e.family, e.at);
  }

  lemma AgreeIsBlank(memory: State, durable: State, now: Time)
    requires Agree(memory, durable, now)
    ensures Blank(Prune(durable, now)) == Prune(durable, now)
  {
    hide Prune, Blank;
    BlankPrune(memory, now);
    BlankTwice(Prune(memory, now));
  }

  /** A registration under an ID that stays in use, with room left, although an idle client is evicted for it. */
  ghost predicate EvictsThenConflicts(memory: State, e: Event, policy: StatePolicy)
    requires e.Register?
  {
    var kept := Evict(memory, policy.registration, e.now).clients;
    && e.client.id in kept && |kept| < policy.registration.maxClients
    && exists id :: id in memory.clients && Evictable(memory, id, policy.registration, e.now)
  }

  /**
   Registration always gets the same answer. The stores still agree afterwards exactly when
   it does not evict an idle client only to find its ID in use: the memory store keeps that
   eviction, the SQLite store undoes it.
   */
  lemma RegisterAgrees(memory: State, t: Tables, t': Tables, r: Outcome, e: Event, policy: StatePolicy, now: Time)
    requires e.Register? && Agree(memory, View(t), now)
    requires Performs(t, t', r, e, policy) && Comparable(memory, t, e, policy, now)
    ensures r == Apply(memory, e, policy).1
    ensures Agree(Apply(memory, e, policy).0, View(t'), e.now) <==> !EvictsThenConflicts(memory, e, policy)
    ensures r == Err(Conflict) ==> e.client.id in memory.clients
  {
    hide Prune, Blank, View, PruneTx, PruneClientsTx, Evict, Evictable, Sound, RowsExact, InsertedUnspent;
    var u := e.now;
    var q := Prune(View(t), u);
    AgreeLater(memory, View(t), now, u);
    PruneTxView(t, u);
    PruneTxTimed(t, policy.registration, u);
    PruneTxSound(t, u);
    PruneClientsView(PruneTx(t, u), policy.registration, u);
    assert Attempt(t, e, policy) == RegisterClient(Evict(q, policy.registration, u), e.client, policy);
    EvictAgrees(memory, View(t), policy.registration, u);
    EvictedClients(memory, policy.registration, u);
    SomeoneEvicted(memory, policy.registration, u);
    if r.Ok? {
      RegisteredAgree(Evict(memory, policy.registration, u), Evict(q, policy.registration, u), e.client, u);
    } else if r == Err(Capacity) {
      EvictAll(memory, View(t), policy, u);
    } else {
      AgreeSameClients(memory, View(t), u);
      if Agree(Evict(memory, policy.registration, u), View(t), u) {
        AgreeSameClients(Evict(memory, policy.registration, u), View(t), u);
      }
    }
  }

  lemma SomeoneEvicted(s: State, policy: RegistrationPolicy, now: Time)
    ensures Evict(s, policy, now).clients != s.clients <==> exists id ::
              id in s.clients && Evictable(s, id, policy, now)
  {
    hide HasLiveState;
    var kept := Evict(s, policy, now).clients;
    if forall id | id in s.clients :: !Evictable(s, id, policy, now) {
      assert kept == s.clients;
    } else {
      var id :| id in s.clients && Evictable(s, id, policy, now);
      assert id !in kept;
    }
  }

  /** Tables that hold two clients and nothing else. */
  function TwoClients(x: Client, y: Client): Tables {
    Tables(map[x.id := ClientRow(x, x.lastUsedAt), y.id := ClientRow(y, y.lastUsedAt)], map[], map[], map[], map[])
  }

  lemma TwoClientsView(x: Client, y: Client, policy: RegistrationPolicy, now: Time)
    requires x.id != y.id && Exact(x.lastUsedAt, now - policy.unverifiedClientTTL)
    requires Exact(y.lastUsedAt, now - policy.unverifiedClientTTL)
    ensures View(TwoClients(x, y)) == EMPTY.(clients := map[x.id := x, y.id := y])
    ensures Sound(TwoClients(x, y)) && InsertedUnspent(TwoClients(x, y)) && Timed(TwoClients(x, y), policy, now)
    ensures PruneTx(TwoClients(x, y), now) == TwoClients(x, y) && |View(TwoClients(x, y)).clients| <= 2
  {
    hide Exact, View, ViewClients, PruneTx, Sound, InsertedUnspent, RowsExact;
    OnlyClients(TwoClients(x, y).clients, now);
    TwoRowsView(x, y);
    var m := map[x.id := x, y.id := y];
    assert |m| == |m.Keys| && m.Keys == {x.id, y.id};
  }

  lemma OnlyClients(rows: map<ClientID, ClientRow>, now: Time)
    ensures var t := Tables(rows, map[], map[], map[], map[]);
            && View(t) == EMPTY.(clients := ViewClients(rows))
            && Sound(t) && InsertedUnspent(t) && RowsExact(t, now) && PruneTx(t, now) == t
  {
    hide Exact, StampAtMost, FamilyDone, ViewClients;
  }

  lemma TwoRowsView(x: Client, y: Client)
    requires x.id != y.id
    ensures ViewClients(TwoClients(x, y).clients) == map[x.id := x, y.id := y]
  {
  }

  /**
   An idle `x`, a configured `y`, and a registration under the ID of `y`: refused by both
   stores, and only the memory store forgets `x`.
   */
  lemma RegistrationDiverges(x: Client, y: Client, client: Client, policy: StatePolicy, now: Time)
    requires x.trust == Unverified && y.trust == Configured && x.id != y.id && client.id == y.id
    requires policy.registration.maxClients >= 2 && now > 0
    requires x.lastUsedAt <= now - policy.registration.unverifiedClientTTL
    requires Exact(x.lastUsedAt, now - policy.registration.unverifiedClientTTL)
    requires Exact(y.lastUsedAt, now - policy.registration.unverifiedClientTTL)
    ensures var t, e := TwoClients(x, y), Register(client, now);
            && Agree(View(t), View(t), now) && Performs(t, t, Err(Conflict), e, policy)
            && Apply(View(t), e, policy).1 == Err(Conflict)
            && !Agree(Apply(View(t), e, policy).0, View(t), now)
  {
    hide Evict, Evictable, Exact, Agree, Prune, Blank, View, TwoClients, PruneTx, PruneClientsTx, Timed, Sound;
    hide InsertedUnspent;
    var t, e := TwoClients(x, y), Register(client, now);
    TwoClientsView(x, y, policy.registration, now);
    OnlyIdleEvicted(x, y, policy.registration, now);
    PruneClientsView(t, policy.registration, now);
    assert Attempt(t, e, policy).1 == Err(Conflict);
    AgreesWithItself(t, now);
    RegisterAgrees(View(t), t, t, Err(Conflict), e, policy, now);
  }

  lemma AgreesWithItself(t: Tables, now: Time)
    requires Sound(t)
    ensures Agree(View(t), View(t), now)
  {
    hide View, Blank, Prune;
    BlankView(t);
  }

  lemma OnlyIdleEvicted(x: Client, y: Client, policy: RegistrationPolicy, now: Time)
    requires x.trust == Unverified && y.trust == Configured && x.id != y.id
    requires x.lastUsedAt <= now - policy.unverifiedClientTTL
    ensures var s := EMPTY.(clients := map[x.id := x, y.id := y]);
            && Evict(s, policy, now).clients == map[y.id := y] && |Evict(s, policy, now).clients| == 1
            && x.id in s.clients && Evictable(s, x.id, policy, now)
  {
    var s := EMPTY.(clients := map[x.id := x, y.id := y]);
    assert Evictable(s, x.id, policy, now) && !Evictable(s, y.id, policy, now);
    assert Evict(s, policy, now).clients == map[y.id := y];
  }

  lemma AgreeSameClients(memory: State, durable: State, now: Time)
    requires Agree(memory, durable, now)
    ensures memory.clients == durable.clients
  {
  }

  lemma PruneTxTimed(t: Tables, policy: RegistrationPolicy, now: Time)
    requires Timed(t, policy, now) && InsertedUnspent(t)
    ensures Timed(PruneTx(t, now), policy, now) && InsertedUnspent(PruneTx(t, now))
  {
    hide StampAtMost, FamilyDone, Exact;
  }

  lemma EvictedClients(s: State, policy: RegistrationPolicy, now: Time)
    ensures Evict(s, policy, now).clients.Keys <= s.clients.Keys
    ensures Evict(s, policy, now) == s <==> Evict(s, policy, now).clients == s.clients
  {
  }

  /** Eviction looks only at live state, so it commutes with pruning and forgetting tokens. */
  lemma EvictAgrees(memory: State, durable: State, policy: RegistrationPolicy, now: Time)
    requires Agree(memory, durable, now)
    ensures Agree(Evict(memory, policy, now), Evict(Prune(durable, now), policy, now), now)
    ensures Evict(memory, policy, now).clients == Evict(Prune(durable, now), policy, now).clients
  {
    hide HasLiveState;
    forall id
      ensures HasLiveState(memory, id, now) <==> HasLiveState(Prune(durable, now), id, now)
    {
      LiveAfterPrune(Blank(memory), id, now);
      LiveAfterBlank(memory, id, now);
    }
    hide PruneAuthorizations, PruneConsents, PruneCodes, PruneRefresh, BlankAuthorizations, BlankConsents;
    PruneAbsorbs(durable, now, now);
    assert memory.clients == durable.clients;
    assert Evict(memory, policy, now).clients == Evict(Prune(durable, now), policy, now).clients;
  }

  lemma LiveAfterPrune(s: State, id: ClientID, now: Time)
    ensures HasLiveState(Prune(s, now), id, now) <==> HasLiveState(s, id, now)
  {
    var p := Prune(s, now);
    if d :| d in s.authorizations && LiveAuthorization(s.authorizations[d], id, now) {
      assert d in p.authorizations && LiveAuthorization(p.authorizations[d], id, now);
    }
    if d :| d in s.consents && LiveConsent(s.consents[d], id, now) {
      assert d in p.consents && LiveConsent(p.consents[d], id, now);
    }
    if d :| d in s.codes && LiveCode(s.codes[d], id, now) {
      assert d in p.codes && LiveCode(p.codes[d], id, now);
    }
    if d :| d in s.refresh && LiveGrant(s.refresh[d], id, now) {
      assert d in p.refresh && LiveGrant(p.refresh[d], id, now);
    }
  }

  lemma LiveAfterBlank(s: State, id: ClientID, now: Time)
    ensures HasLiveState(Blank(s), id, now) <==> HasLiveState(s, id, now)
  {
    var b := Blank(s);
    if d :| d in s.authorizations && LiveAuthorization(s.authorizations[d], id, now) {
      assert d in b.authorizations && LiveAuthorization(b.authorizations[d], id, now);
    }
    if d :| d in s.consents && LiveConsent(s.consents[d], id, now) {
      assert d in b.consents && LiveConsent(b.consents[d], id, now);
    }
  }

  lemma RegisteredAgree(memory: State, durable: State, client: Client, now: Time)
    requires Agree(memory, durable, now) && memory.clients == durable.clients
    ensures Agree(memory.(clients := memory.clients[client.id := client]),
                  Blank(durable.(clients := durable.clients[client.id := client])), now)
  {
    hide PruneAuthorizations, PruneConsents, PruneCodes, PruneRefresh, BlankAuthorizations, BlankConsents;
    BlankPrune(durable, now);
    AgreeIsBlank(memory, durable, now);
  }

  /** A full client table of bounded size has nobody to evict, so the refusal leaves both stores as they were. */
  lemma EvictAll(memory: State, durable: State, policy: StatePolicy, now: Time)
    requires Agree(memory, durable, now) && |memory.clients| <= policy.registration.maxClients
    requires |Evict(memory, policy.registration, now).clients| >= policy.registration.maxClients
    ensures Evict(memory, policy.registration, now) == memory
  {
    var kept := Evict(memory, policy.registration, now).clients;
    SubsetCount(kept.Keys, memory.clients.Keys);
    assert kept == memory.clients;
  }

  lemma TouchAgrees(memory: State, t: Tables, t': Tables, r: Outcome, e: Event, policy: StatePolicy, now: Time)
    requires e.Touch? && Agree(memory, View(t), now) && Performs(t, t', r, e, policy)
    ensures r == Apply(memory, e, policy).1
    ensures Agree(Apply(memory, e, policy).0, View(t'), now)
  {
    hide View, PruneAuthorizations, PruneConsents, PruneCodes, PruneRefresh, BlankAuthorizations, BlankConsents;
    assert memory.clients == View(t).clients;
    AgreeIsBlank(memory, View(t), now);
    BlankPrune(TouchClient(View(t), e.id, e.at).0, now);
  }

  // -------------------------------------------------------------------------
  // Whole runs
  // -------------------------------------------------------------------------

  /** The memory store's run, one state per call. */
  ghost predicate MemoryTrace(ms: seq<State>, rs: seq<Outcome>, es: seq<Event>, policy: StatePolicy) {
    && |ms| == |es| + 1 && |rs| == |es|
    && forall i | 0 <= i < |es| :: Apply(ms[i], es[i], policy) == (ms[i + 1], rs[i])
  }

  /** What every call of the SQLite store's class promises. */
  ghost predicate DurableCall(t: Tables, t': Tables, r: Outcome, e: Event, policy: StatePolicy) {
    Performs(t, t', r, e, policy) && Writes(t, t', e) && Sound(t')
  }

  /** The SQLite store's run on the same calls. */
  ghost predicate DurableTrace(ts: seq<Tables>, rs: seq<Outcome>, es: seq<Event>, policy: StatePolicy) {
    && |ts| == |es| + 1 && |rs| == |es|
    && forall i | 0 <= i < |es| :: DurableCall(ts[i], ts[i + 1], rs[i], es[i], policy)
  }

  /** A call that brings exact instants leaves exact instants. */
  lemma TimedStays(t: Tables, t': Tables, e: Event, policy: RegistrationPolicy, now: Time)
    requires Timed(t, policy, now) && RecordTimed(e, policy, now) && Writes(t, t', e)
    ensures Timed(t', policy, now)
  {
    hide Exact;
    forall id | id in t'.clients
      ensures Exact(t'.clients[id].lastUsedAt, now - policy.unverifiedClientTTL)
    {
      assert ClientFrom(t.clients, id, t'.clients[id], e);
    }
    forall d | d in t'.authorizations
      ensures Exact(t'.authorizations[d].payload.expiresAt, now)
    {
      assert AuthorizationFrom(t.authorizations, d, t'.authorizations[d].payload, e);
    }
    forall d | d in t'.consents
      ensures Exact(t'.consents[d].payload.expiresAt, now)
    {
      assert ConsentFrom(t.consents, d, t'.consents[d].payload, e);
    }
    forall d | d in t'.codes
      ensures Exact(t'.codes[d].payload.expiresAt, now)
    {
      assert CodeFrom(t.codes, d, t'.codes[d].payload, e);
    }
    forall d | d in t'.refresh
      ensures Exact(t'.refresh[d].payload.expiresAt, now)
    {
      assert GrantFrom(t.refresh, d, t'.refresh[d].payload, e);
    }
  }

  lemma UnspentStays(t: Tables, t': Tables, e: Event)
    requires InsertedUnspent(t) && RecordUnspent(e) && Writes(t, t', e)
    ensures InsertedUnspent(t')
  {
    forall d | d in t'.authorizations
      ensures t'.authorizations[d].payload.consumedAt == ZERO_TIME
    {
      assert AuthorizationFrom(t.authorizations, d, t'.authorizations[d].payload, e);
    }
    forall d | d in t'.consents
      ensures t'.consents[d].payload.consumedAt == ZERO_TIME
    {
      assert ConsentFrom(t.consents, d, t'.consents[d].payload, e);
    }
    forall d | d in t'.codes
      ensures t'.codes[d].payload.consumedAt == ZERO_TIME
    {
      assert CodeFrom(t.codes, d, t'.codes[d].payload, e);
    }
  }

  /** No call lets the client table grow beyond its bound. */
  lemma ClientsStayBounded(s: State, e: Event, policy: StatePolicy)
    requires |s.clients| <= policy.registration.maxClients
    ensures |Apply(s, e, policy).0.clients| <= policy.registration.maxClients
  {
    hide PruneAuthorizations, PruneConsents, PruneCodes, PruneRefresh, RevokeRows, ActiveGrants, Evictable;
    hide ValidateLoginCommit, ValidateConsentCommit, ValidateCodeExchangeCommit, ValidateRefreshRotation;
    assert |s.clients| == |s.clients.Keys|;
    if e.Register? {
      var kept := Evict(s, policy.registration, e.now).clients;
      SubsetCount(kept.Keys, s.clients.Keys);
    } else if e.Touch? && e.id in s.clients {
      SubsetCount(s.clients[e.id := s.clients[e.id].(lastUsedAt := e.at)].Keys, s.clients.Keys);
    } else {
      assert Apply(s, e, policy).0.clients == s.clients;
    }
  }

  /** Exactly when the stores no longer agree after a call that finds them agreeing. */
  ghost predicate Diverges(memory: State, e: Event, policy: StatePolicy) {
    if e.Register? then EvictsThenConflicts(memory, e, policy) else ReadingsDiverge(memory, e, policy)
  }

  lemma StepAgrees(memory: State, t: Tables, t': Tables, r: Outcome, e: Event, policy: StatePolicy, now: Time)
    requires Agree(memory, View(t), now) && Performs(t, t', r, e, policy) && Comparable(memory, t, e, policy, now)
    ensures r == Apply(memory, e, policy).1 <==> !AnswersDiffer(memory, e, policy)
    ensures Agree(Apply(memory, e, policy).0, View(t'), TimeAfter(e, now)) <==> !Diverges(memory, e, policy)
  {
    hide Agree, Performs, Comparable, Apply, EvictsThenConflicts;
    if e.Register? {
      RegisterAgrees(memory, t, t', r, e, policy, now);
    } else if e.Touch? {
      TouchAgrees(memory, t, t', r, e, policy, now);
    } else if e.Revoke? {
      RevokeAgrees(memory, t, t', r, e, policy, now);
    } else {
      hide AnswersDiffer, ReadingsDiverge;
      CommitAgrees(memory, t, t', r, e, policy, now);
    }
  }

  /** Clock readings along a run: `clocks[i]` is the last reading before call `i`. */
  ghost predicate ClocksOf(clocks: seq<Time>, es: seq<Event>) {
    |clocks| == |es| + 1 && forall i | 0 <= i < |es| :: clocks[i + 1] == TimeAfter(es[i], clocks[i])
  }

  /** What call `i` compares of what call `j` brought before it, it compares exactly. */
  predicate ExactAlong(es: seq<Event>, clocks: seq<Time>, policy: RegistrationPolicy)
    requires |clocks| == |es| + 1
  {
    forall i, j | 0 <= j < i < |es| && ReadsClock(es[i]) :: RecordTimed(es[j], policy, clocks[i + 1])
  }

  /** A clock that does not go back and never shows the zero time, and records inserted unspent. */
  predicate InOrder(es: seq<Event>, clocks: seq<Time>)
    requires |clocks| == |es| + 1
  {
    && 0 < clocks[0]
    && forall i | 0 <= i < |es| ::
         clocks[i] <= clocks[i + 1] && RecordUnspent(es[i]) && (ReadsTwice(es[i]) ==> es[i].pruneAt <= es[i].now)
  }

  /** Both stores, started empty and given the same calls, whose texts compare in order. */
  ghost predicate SideBySide(ms: seq<State>, ts: seq<Tables>, mrs: seq<Outcome>, trs: seq<Outcome>,
                             es: seq<Event>, clocks: seq<Time>, policy: StatePolicy)
  {
    && MemoryTrace(ms, mrs, es, policy) && DurableTrace(ts, trs, es, policy) && ClocksOf(clocks, es)
    && ms[0] == EMPTY && ts[0] == Tables(map[], map[], map[], map[], map[])
    && InOrder(es, clocks) && ExactAlong(es, clocks, policy.registration) && policy.registration.maxClients > 0
  }

  /** What keeps the states comparable holds whether they agree or not. */
  lemma {:induction false} ComparableUpTo(ms: seq<State>, ts: seq<Tables>, mrs: seq<Outcome>, trs: seq<Outcome>,
                                          es: seq<Event>, clocks: seq<Time>, policy: StatePolicy, n: nat)
    requires SideBySide(ms, ts, mrs, trs, es, clocks, policy) && n <= |es|
    ensures Sound(ts[n]) && InsertedUnspent(ts[n]) && 0 < clocks[n]
    ensures |ms[n].clients| <= policy.registration.maxClients
    ensures forall i | n <= i < |es| && ReadsClock(es[i]) :: Timed(ts[n], policy.registration, clocks[i + 1])
  {
    hide Performs, Writes, Apply, Sound, Exact, RecordUnspent, Timed, RecordTimed, InsertedUnspent;
    if n == 0 {
      EmptyStoresAgree(clocks[0]);
      forall i | 0 <= i < |es| && ReadsClock(es[i])
        ensures Timed(ts[0], policy.registration, clocks[i + 1])
      {
        NothingIsTimed(policy.registration, clocks[i + 1]);
      }
    } else {
      var m := n - 1;
      ComparableUpTo(ms, ts, mrs, trs, es, clocks, policy, m);
      assert DurableCall(ts[m], ts[n], trs[m], es[m], policy);
      assert Apply(ms[m], es[m], policy) == (ms[n], mrs[m]);
      UnspentStays(ts[m], ts[n], es[m]);
      ClientsStayBounded(ms[m], es[m], policy);
      forall i | n <= i < |es| && ReadsClock(es[i])
        ensures Timed(ts[n], policy.registration, clocks[i + 1])
      {
        TimedStays(ts[m], ts[n], es[m], policy.registration, clocks[i + 1]);
      }
    }
  }

  lemma CallAgrees(ms: seq<State>, ts: seq<Tables>, mrs: seq<Outcome>, trs: seq<Outcome>,
                   es: seq<Event>, clocks: seq<Time>, policy: StatePolicy, m: nat)
    requires SideBySide(ms, ts, mrs, trs, es, clocks, policy) && m < |es|
    requires Agree(ms[m], View(ts[m]), clocks[m])
    ensures mrs[m] == trs[m] <==> !AnswersDiffer(ms[m], es[m], policy)
    ensures Agree(ms[m + 1], View(ts[m + 1]), clocks[m + 1]) <==> !Diverges(ms[m], es[m], policy)
  {
    hide Performs, Writes, Apply, Sound, Exact, RecordUnspent, Timed, RecordTimed, InsertedUnspent, Agree;
    hide AnswersDiffer, Diverges;
    ComparableUpTo(ms, ts, mrs, trs, es, clocks, policy, m);
    assert clocks[m + 1] == TimeAfter(es[m], clocks[m]);
    assert DurableCall(ts[m], ts[m + 1], trs[m], es[m], policy);
    assert Apply(ms[m], es[m], policy) == (ms[m + 1], mrs[m]);
    StepAgrees(ms[m], ts[m], ts[m + 1], trs[m], es[m], policy, clocks[m]);
  }

  lemma {:induction false} AgreeUpTo(ms: seq<State>, ts: seq<Tables>, mrs: seq<Outcome>, trs: seq<Outcome>,
                                     es: seq<Event>, clocks: seq<Time>, policy: StatePolicy, n: nat)
    requires SideBySide(ms, ts, mrs, trs, es, clocks, policy) && n <= |es|
    requires forall i | 0 <= i < n :: !Diverges(ms[i], es[i], policy)
    ensures Agree(ms[n], View(ts[n]), clocks[n])
  {
    if n == 0 {
      EmptyStoresAgree(clocks[0]);
    } else {
      hide Agree, SideBySide, Diverges;
      SameLengths(ms, ts, mrs, trs, es, clocks, policy);
      AgreeUpTo(ms, ts, mrs, trs, es, clocks, policy, n - 1);
      CallAgrees(ms, ts, mrs, trs, es, clocks, policy, n - 1);
    }
  }

  lemma SameLengths(ms: seq<State>, ts: seq<Tables>, mrs: seq<Outcome>, trs: seq<Outcome>,
                    es: seq<Event>, clocks: seq<Time>, policy: StatePolicy)
    requires SideBySide(ms, ts, mrs, trs, es, clocks, policy)
    ensures |ms| == |ts| == |clocks| == |es| + 1 && |mrs| == |trs| == |es|
  {
  }

  /**
   Both stores agree before and after every call exactly when no call finds a full table, or
   a digest or a family ID in use, that is no longer so at its second reading, nor evicts a
   client only to find its ID in use. Along such a run they answer a call alike exactly when
   nothing that its answer depends on expires between its two readings.
   */
  lemma StoresAgree(ms: seq<State>, ts: seq<Tables>, mrs: seq<Outcome>, trs: seq<Outcome>,
                    es: seq<Event>, clocks: seq<Time>, policy: StatePolicy)
    requires SideBySide(ms, ts, mrs, trs, es, clocks, policy)
    ensures |ms| == |ts| == |clocks| == |es| + 1 && |mrs| == |trs| == |es|
    ensures (forall i | 0 <= i <= |es| :: Agree(ms[i], View(ts[i]), clocks[i]))
            <==> (forall i | 0 <= i < |es| :: !Diverges(ms[i], es[i], policy))
    ensures (forall i | 0 <= i < |es| :: !Diverges(ms[i], es[i], policy)) ==>
              forall i | 0 <= i < |es| :: mrs[i] == trs[i] <==> !AnswersDiffer(ms[i], es[i], policy)
  {
    hide SideBySide, Agree, Diverges, AnswersDiffer;
    SameLengths(ms, ts, mrs, trs, es, clocks, policy);
    if forall i | 0 <= i < |es| :: !Diverges(ms[i], es[i], policy) {
      forall i | 0 <= i <= |es|
        ensures Agree(ms[i], View(ts[i]), clocks[i])
        ensures i < |es| ==> (mrs[i] == trs[i] <==> !AnswersDiffer(ms[i], es[i], policy))
      {
        AgreeUpTo(ms, ts, mrs, trs, es, clocks, policy, i);
        if i < |es| {
          CallAgrees(ms, ts, mrs, trs, es, clocks, policy, i);
        }
      }
    }
    if forall i | 0 <= i <= |es| :: Agree(ms[i], View(ts[i]), clocks[i]) {
      forall i | 0 <= i < |es|
        ensures !Diverges(ms[i], es[i], policy)
      {
        assert Agree(ms[i], View(ts[i]), clocks[i]) && Agree(ms[i + 1], View(ts[i + 1]), clocks[i + 1]);
        CallAgrees(ms, ts, mrs, trs, es, clocks, policy, i);
      }
    }
  }

  lemma EmptyStoresAgree(now: Time)
    ensures var t := Tables(map[], map[], map[], map[], map[]);
            Agree(EMPTY, View(t), now) && Sound(t) && InsertedUnspent(t)
  {
    assert Blank(EMPTY) == View(Tables(map[], map[], map[], map[], map[]));
  }

  lemma NothingIsTimed(policy: RegistrationPolicy, now: Time)
    ensures Timed(Tables(map[], map[], map[], map[], map[]), policy, now)
  {
  }
}
