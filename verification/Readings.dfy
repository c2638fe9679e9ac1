/**
 A commit of the memory store reads the clock twice, once to prune and once to commit; the
 SQLite store reads it once. What a record that expires between the two readings changes:
 when the answers differ, and when the stores do afterwards.
 */
module Readings {
  import opened Scopes
  import opened Model
  import opened Transitions
  import opened StoreSpec
  import opened SqliteStore

  /** The same call with the second reading only. */
  function AtOnce(e: Event): Event {
    match e
    case Login(commit, _, now) => Login(commit, now, now)
    case Decide(commit, _, now) => Decide(commit, now, now)
    case Exchange(commit, _, now) => Exchange(commit, now, now)
    case Rotate(rotation, _, now) => Rotate(rotation, now, now)
    case _ => e
  }

  predicate ReadsTwice(e: Event) {
    e.Login? || e.Decide? || e.Exchange? || e.Rotate?
  }

  lemma BlankPrune(s: State, now: Time)
    ensures Prune(Blank(s), now) == Blank(Prune(s, now))
  {
    hide PruneRefresh;
    assert PruneAuthorizations(Blank(s).authorizations, now) == Blank(Prune(s, now)).authorizations;
    assert PruneConsents(Blank(s).consents, now) == Blank(Prune(s, now)).consents;
  }

  /** Equal once what has expired and the tokens are forgotten. */
  ghost predicate Alike(a: State, b: State, now: Time) {
    Prune(Blank(a), now) == Prune(Blank(b), now)
  }

  lemma SameIsAlike(a: State, b: State, now: Time)
    requires Prune(a, now) == Prune(b, now)
    ensures Alike(a, b, now)
  {
    hide Prune, Blank;
    BlankPrune(a, now);
    BlankPrune(b, now);
  }

  // -------------------------------------------------------------------------
  // Adding a record to a table from which rows expire
  // -------------------------------------------------------------------------

  /** The table before and after the rows expire: is it full, and does it hold the new digest. */
  datatype Table = Table(full: bool, held: bool, laterFull: bool, laterHeld: bool)

  /** Refused for room or for the digest at first, and not so, or otherwise, later. */
  predicate AnswersChange(t: Table) {
    (t.full && !t.laterFull) || (!t.full && t.held && !t.laterHeld)
  }

  /** Refused at first and accepted later. */
  predicate Admitted(t: Table) {
    (t.full || t.held) && !t.laterFull && !t.laterHeld
  }

  function Adds(t: Table): Outcome {
    if t.full then Err(Capacity) else if t.held then Err(Conflict) else Ok
  }

  ghost function ConsentTable(p: State, q: State, digest: CredentialDigest, policy: StatePolicy): Table {
    Table(|p.consents| >= policy.capacity.maxConsents, digest in p.consents,
          |q.consents| >= policy.capacity.maxConsents, digest in q.consents)
  }

  ghost function CodeTable(p: State, q: State, digest: CredentialDigest, policy: StatePolicy): Table {
    Table(|p.codes| >= policy.capacity.maxCodes, digest in p.codes,
          |q.codes| >= policy.capacity.maxCodes, digest in q.codes)
  }

  ghost function GrantTable(p: State, q: State, digest: CredentialDigest, policy: StatePolicy): Table {
    Table(|ActiveGrants(p.refresh)| >= policy.capacity.maxRefreshGrants, digest in p.refresh,
          |ActiveGrants(q.refresh)| >= policy.capacity.maxRefreshGrants, digest in q.refresh)
  }

  lemma FewerRows(p: State, now: Time)
    ensures var q := Prune(p, now);
            && |q.consents| <= |p.consents| && |q.codes| <= |p.codes|
            && |ActiveGrants(q.refresh)| <= |ActiveGrants(p.refresh)|
            && q.authorizations.Keys <= p.authorizations.Keys && q.consents.Keys <= p.consents.Keys
            && q.codes.Keys <= p.codes.Keys && q.refresh.Keys <= p.refresh.Keys
  {
    var q := Prune(p, now);
    SubsetCount(q.consents.Keys, p.consents.Keys);
    SubsetCount(q.codes.Keys, p.codes.Keys);
    SubsetCount(ActiveGrants(q.refresh), ActiveGrants(p.refresh));
    assert |q.consents| == |q.consents.Keys| && |p.consents| == |p.consents.Keys|;
    assert |q.codes| == |q.codes.Keys| && |p.codes| == |p.codes.Keys|;
  }

  lemma PruneTwice(p: State, now: Time)
    ensures Prune(Prune(p, now), now) == Prune(p, now)
  {
    PruneAbsorbs(p, now, now);
  }

  // -------------------------------------------------------------------------
  // Login
  // -------------------------------------------------------------------------

  /** In terms of the state `p` as it was pruned by the first reading. */
  ghost predicate LoginAnswersDiffer(p: State, commit: LoginCommit, policy: StatePolicy, now: Time) {
    var q := Prune(p, now);
    && commit.transaction in p.authorizations
    && (|| commit.transaction !in q.authorizations
        || (ValidateLoginCommit(p.authorizations[commit.transaction], commit.consent, now) == Ok
            && AnswersChange(ConsentTable(p, q, DigestCredential(commit.consent.token), policy))))
  }

  ghost predicate LoginDiverges(p: State, commit: LoginCommit, policy: StatePolicy, now: Time) {
    && commit.transaction in p.authorizations
    && ValidateLoginCommit(p.authorizations[commit.transaction], commit.consent, now) == Ok
    && Admitted(ConsentTable(p, Prune(p, now), DigestCredential(commit.consent.token), policy))
  }

  lemma LoginReadings(p: State, commit: LoginCommit, policy: StatePolicy, now: Time)
    requires now != ZERO_TIME
    ensures CommitLogin(p, commit, policy, now).1 != CommitLogin(Prune(p, now), commit, policy, now).1
            <==> LoginAnswersDiffer(p, commit, policy, now)
    ensures Alike(CommitLogin(p, commit, policy, now).0, CommitLogin(Prune(p, now), commit, policy, now).0, now)
            <==> !LoginDiverges(p, commit, policy, now)
  {
    hide Prune, ValidateLoginCommit, Alike;
    var q, tx := Prune(p, now), commit.transaction;
    FewerRows(p, now);
    PruneTwice(p, now);
    SameIsAlike(p, q, now);
    if tx in p.authorizations {
      AuthorizationRow(p, tx, now);
      if ValidateLoginCommit(p.authorizations[tx], commit.consent, now) == Ok {
        LiveLogin(p.authorizations[tx], commit.consent, now);
        LoginSame(p, commit, now);
        LoginApart(p, commit, now);
      }
    }
  }

  lemma AuthorizationRow(p: State, tx: CredentialDigest, now: Time)
    requires tx in p.authorizations
    ensures tx in Prune(p, now).authorizations <==> p.authorizations[tx].expiresAt > now
    ensures tx in Prune(p, now).authorizations ==> Prune(p, now).authorizations[tx] == p.authorizations[tx]
    ensures p.authorizations[tx].expiresAt <= now ==>
              forall c :: ValidateLoginCommit(p.authorizations[tx], c, now).Err?
                          && ValidateLoginCommit(p.authorizations[tx], c, now) != Err(NotFound)
  {
  }

  lemma LiveLogin(auth: Authorization, c: Consent, now: Time)
    requires ValidateLoginCommit(auth, c, now) == Ok
    ensures auth.consumedAt == ZERO_TIME && auth.expiresAt > now && c.expiresAt > now
  {
  }

  ghost function LoggedIn(p: State, commit: LoginCommit, now: Time): State
    requires commit.transaction in p.authorizations
  {
    p.(authorizations := p.authorizations[commit.transaction
                                          := p.authorizations[commit.transaction].(consumedAt := now)],
       consents := p.consents[DigestCredential(commit.consent.token) := commit.consent])
  }

  lemma LoginSame(p: State, commit: LoginCommit, now: Time)
    requires commit.transaction in p.authorizations && p.authorizations[commit.transaction].expiresAt > now
    requires commit.consent.expiresAt > now
    ensures commit.transaction in Prune(p, now).authorizations
    ensures Alike(LoggedIn(p, commit, now), LoggedIn(Prune(p, now), commit, now), now)
  {
    hide PruneCodes, PruneRefresh, Alike;
    LoginPrunes(p, commit, now);
    LoginPrunes(Prune(p, now), commit, now);
    PruneTwice(p, now);
    SameIsAlike(LoggedIn(p, commit, now), LoggedIn(Prune(p, now), commit, now), now);
  }

  lemma LoginPrunes(p: State, commit: LoginCommit, now: Time)
    requires commit.transaction in p.authorizations && p.authorizations[commit.transaction].expiresAt > now
    requires commit.consent.expiresAt > now
    ensures commit.transaction in Prune(p, now).authorizations
    ensures Prune(p, now).authorizations[commit.transaction] == p.authorizations[commit.transaction]
    ensures Prune(LoggedIn(p, commit, now), now) == LoggedIn(Prune(p, now), commit, now)
  {
    hide PruneCodes, PruneRefresh;
    var tx, d := commit.transaction, DigestCredential(commit.consent.token);
    assert PruneConsents(p.consents[d := commit.consent], now) == PruneConsents(p.consents, now)[d := commit.consent];
    var row := p.authorizations[tx].(consumedAt := now);
    assert PruneAuthorizations(p.authorizations[tx := row], now)
           == PruneAuthorizations(p.authorizations, now)[tx := row];
  }

  /** The transaction is spent in one store and not in the other. */
  lemma LoginApart(p: State, commit: LoginCommit, now: Time)
    requires commit.transaction in p.authorizations && p.authorizations[commit.transaction].expiresAt > now
    requires p.authorizations[commit.transaction].consumedAt == ZERO_TIME && now != ZERO_TIME
    requires commit.transaction in Prune(p, now).authorizations
    ensures !Alike(p, LoggedIn(Prune(p, now), commit, now), now)
  {
    hide PruneCodes, PruneRefresh, PruneConsents, BlankConsents;
    var tx := commit.transaction;
    var a, b := Prune(Blank(p), now), Prune(Blank(LoggedIn(Prune(p, now), commit, now)), now);
    assert tx in a.authorizations && a.authorizations[tx].consumedAt == ZERO_TIME;
    assert tx in b.authorizations && b.authorizations[tx].consumedAt == now;
  }

  // -------------------------------------------------------------------------
  // Decision
  // -------------------------------------------------------------------------

  ghost predicate DecisionAnswersDiffer(p: State, commit: ConsentCommit, policy: StatePolicy, now: Time) {
    var q := Prune(p, now);
    && commit.consent in p.consents
    && (|| commit.consent !in q.consents
        || (ValidateConsentCommit(p.consents[commit.consent], commit, now) == Ok && commit.decision == Approve
            && AnswersChange(CodeTable(p, q, commit.code.digest, policy))))
  }

  ghost predicate DecisionDiverges(p: State, commit: ConsentCommit, policy: StatePolicy, now: Time) {
    && commit.consent in p.consents && commit.decision == Approve
    && ValidateConsentCommit(p.consents[commit.consent], commit, now) == Ok
    && Admitted(CodeTable(p, Prune(p, now), commit.code.digest, policy))
  }

  lemma DecisionReadings(p: State, commit: ConsentCommit, policy: StatePolicy, now: Time)
    requires now != ZERO_TIME
    ensures CommitConsent(p, commit, policy, now).1 != CommitConsent(Prune(p, now), commit, policy, now).1
            <==> DecisionAnswersDiffer(p, commit, policy, now)
    ensures Alike(CommitConsent(p, commit, policy, now).0, CommitConsent(Prune(p, now), commit, policy, now).0, now)
            <==> !DecisionDiverges(p, commit, policy, now)
  {
    hide Prune, ValidateConsentCommit, Alike;
    var q, k := Prune(p, now), commit.consent;
    FewerRows(p, now);
    PruneTwice(p, now);
    SameIsAlike(p, q, now);
    if k in p.consents {
      ConsentRow(p, k, now);
      if ValidateConsentCommit(p.consents[k], commit, now) == Ok {
        LiveDecision(p.consents[k], commit, now);
        DecisionSame(p, commit, now);
        DecisionApart(p, commit, now);
      }
    }
  }

  lemma ConsentRow(p: State, k: CredentialDigest, now: Time)
    requires k in p.consents
    ensures k in Prune(p, now).consents <==> p.consents[k].expiresAt > now
    ensures k in Prune(p, now).consents ==> Prune(p, now).consents[k] == p.consents[k]
    ensures p.consents[k].expiresAt <= now ==>
              forall c :: ValidateConsentCommit(p.consents[k], c, now).Err?
                          && ValidateConsentCommit(p.consents[k], c, now) != Err(NotFound)
  {
  }

  lemma LiveDecision(consent: Consent, commit: ConsentCommit, now: Time)
    requires ValidateConsentCommit(consent, commit, now) == Ok
    ensures consent.consumedAt == ZERO_TIME && consent.expiresAt > now
    ensures commit.decision == Approve ==> commit.code.expiresAt > now
  {
  }

  ghost function Decided(p: State, commit: ConsentCommit, now: Time): State
    requires commit.consent in p.consents
  {
    p.(consents := p.consents[commit.consent := p.consents[commit.consent].(consumedAt := now)],
       codes := if commit.decision == Approve then p.codes[commit.code.digest := commit.code] else p.codes)
  }

  lemma DecisionSame(p: State, commit: ConsentCommit, now: Time)
    requires commit.consent in p.consents && p.consents[commit.consent].expiresAt > now
    requires commit.decision == Approve ==> commit.code.expiresAt > now
    ensures commit.consent in Prune(p, now).consents
    ensures Alike(Decided(p, commit, now), Decided(Prune(p, now), commit, now), now)
  {
    hide PruneAuthorizations, PruneRefresh, Alike;
    DecisionPrunes(p, commit, now);
    DecisionPrunes(Prune(p, now), commit, now);
    PruneTwice(p, now);
    SameIsAlike(Decided(p, commit, now), Decided(Prune(p, now), commit, now), now);
  }

  lemma DecisionPrunes(p: State, commit: ConsentCommit, now: Time)
    requires commit.consent in p.consents && p.consents[commit.consent].expiresAt > now
    requires commit.decision == Approve ==> commit.code.expiresAt > now
    ensures commit.consent in Prune(p, now).consents
    ensures Prune(p, now).consents[commit.consent] == p.consents[commit.consent]
    ensures Prune(Decided(p, commit, now), now) == Decided(Prune(p, now), commit, now)
  {
    hide PruneAuthorizations, PruneRefresh;
    var k, d := commit.consent, commit.code.digest;
    var row := p.consents[k].(consumedAt := now);
    assert PruneConsents(p.consents[k := row], now) == PruneConsents(p.consents, now)[k := row];
    if commit.decision == Approve {
      assert PruneCodes(p.codes[d := commit.code], now) == PruneCodes(p.codes, now)[d := commit.code];
    }
  }

  lemma DecisionApart(p: State, commit: ConsentCommit, now: Time)
    requires commit.consent in p.consents && p.consents[commit.consent].expiresAt > now
    requires p.consents[commit.consent].consumedAt == ZERO_TIME && now != ZERO_TIME
    requires commit.consent in Prune(p, now).consents
    ensures !Alike(p, Decided(Prune(p, now), commit, now), now)
  {
    hide PruneCodes, PruneRefresh, PruneAuthorizations, BlankAuthorizations;
    var k := commit.consent;
    var a, b := Prune(Blank(p), now), Prune(Blank(Decided(Prune(p, now), commit, now)), now);
    assert k in a.consents && a.consents[k].consumedAt == ZERO_TIME;
    assert k in b.consents && b.consents[k].consumedAt == now;
  }

  // -------------------------------------------------------------------------
  // Exchange
  // -------------------------------------------------------------------------

  ghost predicate ExchangeAnswersDiffer(p: State, commit: ExchangeCommit, policy: StatePolicy, now: Time) {
    var q := Prune(p, now);
    && commit.code in p.codes
    && (|| commit.code !in q.codes
        || (ValidateCodeExchangeCommit(p.codes[commit.code], commit, now) == Ok
            && AnswersChange(GrantTable(p, q, commit.refresh.value.digest, policy))))
  }

  /** The family ID is that of rows that the second reading finds expired; the new grant keeps them alive. */
  ghost predicate RevivesFamily(p: State, family: RefreshFamilyID, now: Time) {
    exists h :: h in p.refresh && p.refresh[h].familyID == family && h !in Prune(p, now).refresh
  }

  ghost predicate ExchangeDiverges(p: State, commit: ExchangeCommit, policy: StatePolicy, now: Time) {
    && commit.code in p.codes && ValidateCodeExchangeCommit(p.codes[commit.code], commit, now) == Ok
    && var table := GrantTable(p, Prune(p, now), commit.refresh.value.digest, policy);
    && (Admitted(table) || (Adds(table) == Ok && RevivesFamily(p, commit.refresh.value.familyID, now)))
  }

  lemma ExchangeReadings(p: State, commit: ExchangeCommit, policy: StatePolicy, now: Time)
    requires now > ZERO_TIME
    ensures CommitCodeExchange(p, commit, policy, now).1 != CommitCodeExchange(Prune(p, now), commit, policy, now).1
            <==> ExchangeAnswersDiffer(p, commit, policy, now)
    ensures Alike(CommitCodeExchange(p, commit, policy, now).0,
                  CommitCodeExchange(Prune(p, now), commit, policy, now).0, now)
            <==> !ExchangeDiverges(p, commit, policy, now)
  {
    hide Prune, ValidateCodeExchangeCommit, Alike, ActiveGrants, RevivesFamily;
    var q, k := Prune(p, now), commit.code;
    FewerRows(p, now);
    PruneTwice(p, now);
    SameIsAlike(p, q, now);
    if k in p.codes {
      CodeRow(p, k, now);
      if ValidateCodeExchangeCommit(p.codes[k], commit, now) == Ok {
        LiveExchange(p.codes[k], commit, now);
        ExchangeSame(p, commit, now);
        ExchangeApart(p, commit, now);
      }
    }
  }

  lemma CodeRow(p: State, k: CredentialDigest, now: Time)
    requires k in p.codes
    ensures k in Prune(p, now).codes <==> p.codes[k].expiresAt > now
    ensures k in Prune(p, now).codes ==> Prune(p, now).codes[k] == p.codes[k]
    ensures p.codes[k].expiresAt <= now ==>
              forall c :: ValidateCodeExchangeCommit(p.codes[k], c, now).Err?
                          && ValidateCodeExchangeCommit(p.codes[k], c, now) != Err(NotFound)
  {
    hide Text;
  }

  lemma LiveExchange(code: Code, commit: ExchangeCommit, now: Time)
    requires ValidateCodeExchangeCommit(code, commit, now) == Ok
    ensures code.consumedAt == ZERO_TIME && code.expiresAt > now
    ensures commit.refresh.Some? && commit.refresh.value.expiresAt > now
  {
    hide Text;
  }

  ghost function Exchanged(p: State, commit: ExchangeCommit, now: Time): State
    requires commit.code in p.codes && commit.refresh.Some?
  {
    var g := commit.refresh.value;
    p.(codes := p.codes[commit.code := p.codes[commit.code].(consumedAt := now)],
       refresh := p.refresh[g.digest := g])
  }

  /** With a grant that is new to the table, the stores stay alike unless it revives a family. */
  lemma ExchangeSame(p: State, commit: ExchangeCommit, now: Time)
    requires commit.code in p.codes && p.codes[commit.code].expiresAt > now && now > ZERO_TIME
    requires commit.refresh.Some? && commit.refresh.value.expiresAt > now
    ensures commit.code in Prune(p, now).codes
    ensures commit.refresh.value.digest !in p.refresh ==>
              (Alike(Exchanged(p, commit, now), Exchanged(Prune(p, now), commit, now), now)
               <==> !RevivesFamily(p, commit.refresh.value.familyID, now))
  {
    hide PruneAuthorizations, PruneConsents, PruneRefresh, RevivesFamily, Alike;
    var g, k := commit.refresh.value, commit.code;
    var row := p.codes[k].(consumedAt := now);
    var a, b := Exchanged(p, commit, now), Exchanged(Prune(p, now), commit, now);
    PruneTwice(p, now);
    SpentCodePrunes(p.codes, k, now);
    SpentCodePrunes(PruneCodes(p.codes, now), k, now);
    if g.digest !in p.refresh {
      NewGrantPrunes(p, g, now);
      if !RevivesFamily(p, g.familyID, now) {
        assert Prune(a, now) == Prune(b, now);
        SameIsAlike(a, b, now);
      } else {
        RevivedDiffers(p, a, b, g, now);
      }
    }
  }

  lemma SpentCodePrunes(rows: map<CredentialDigest, Code>, k: CredentialDigest, now: Time)
    requires k in rows && rows[k].expiresAt > now
    ensures k in PruneCodes(rows, now) && PruneCodes(rows, now)[k] == rows[k]
    ensures PruneCodes(rows[k := rows[k].(consumedAt := now)], now)
            == PruneCodes(rows, now)[k := rows[k].(consumedAt := now)]
  {
  }

  lemma FamilyWithNewGrant(rows: map<CredentialDigest, Grant>, g: Grant, f: RefreshFamilyID, now: Time)
    requires g.digest !in rows && g.expiresAt > now
    ensures FamilyLive(rows[g.digest := g], f, now) <==> FamilyLive(rows, f, now) || f == g.familyID
  {
    var rows' := rows[g.digest := g];
    if ZERO_TIME <= now && FamilyLive(rows', f, now) && f != g.familyID {
      var d :| d in rows' && rows'[d].familyID == f && rows'[d].expiresAt > now;
      assert d in rows && rows[d].familyID == f;
    }
    if ZERO_TIME <= now && FamilyLive(rows, f, now) {
      var d :| d in rows && rows[d].familyID == f && rows[d].expiresAt > now;
      assert d in rows' && rows'[d].familyID == f && rows'[d].expiresAt > now;
    }
    if f == g.familyID {
      assert g.digest in rows' && rows'[g.digest].familyID == f;
    }
  }

  /** What a prune keeps of a table with a new, live grant. */
  lemma KeptWithNewGrant(rows: map<CredentialDigest, Grant>, g: Grant, h: CredentialDigest, now: Time)
    requires g.digest !in rows && g.expiresAt > now
    ensures h in PruneRefresh(rows[g.digest := g], now)
            <==> h == g.digest || h in PruneRefresh(rows, now) || (h in rows && rows[h].familyID == g.familyID)
  {
    if h == g.digest {
      FamilyWithNewGrant(rows, g, g.familyID, now);
    } else if h in rows {
      FamilyWithNewGrant(rows, g, rows[h].familyID, now);
    }
    hide FamilyLive;
  }

  lemma NewGrantPrunes(p: State, g: Grant, now: Time)
    requires g.digest !in p.refresh && g.expiresAt > now && now > ZERO_TIME
    ensures forall h :: h in PruneRefresh(p.refresh[g.digest := g], now)
              <==> h == g.digest || h in PruneRefresh(p.refresh, now)
                   || (h in p.refresh && p.refresh[h].familyID == g.familyID)
    ensures PruneRefresh(Prune(p, now).refresh[g.digest := g], now) == Prune(p, now).refresh[g.digest := g]
    ensures !RevivesFamily(p, g.familyID, now) ==>
              PruneRefresh(p.refresh[g.digest := g], now) == PruneRefresh(p.refresh, now)[g.digest := g]
  {
    hide FamilyLive;
    var q := PruneRefresh(p.refresh, now);
    PruneTwice(p, now);
    assert PruneRefresh(q, now) == q;
    forall h
      ensures h in PruneRefresh(p.refresh[g.digest := g], now)
              <==> h == g.digest || h in q || (h in p.refresh && p.refresh[h].familyID == g.familyID)
      ensures h in PruneRefresh(q[g.digest := g], now) <==> h == g.digest || h in q
    {
      KeptWithNewGrant(p.refresh, g, h, now);
      KeptWithNewGrant(q, g, h, now);
    }
    assert PruneRefresh(q[g.digest := g], now) == q[g.digest := g];
    if !RevivesFamily(p, g.familyID, now) {
      assert PruneRefresh(p.refresh[g.digest := g], now) == q[g.digest := g];
    }
  }

  lemma RevivedDiffers(p: State, a: State, b: State, g: Grant, now: Time)
    requires RevivesFamily(p, g.familyID, now) && g.digest !in p.refresh && g.expiresAt > now && now > ZERO_TIME
    requires a.refresh == p.refresh[g.digest := g] && b.refresh == Prune(p, now).refresh[g.digest := g]
    ensures !Alike(a, b, now)
  {
    hide PruneAuthorizations, PruneConsents, PruneCodes, PruneRefresh, BlankAuthorizations, BlankConsents;
    NewGrantPrunes(p, g, now);
    var h :| h in p.refresh && p.refresh[h].familyID == g.familyID && h !in Prune(p, now).refresh;
    assert h in PruneRefresh(a.refresh, now) && h !in PruneRefresh(b.refresh, now);
  }

  lemma ExchangeApart(p: State, commit: ExchangeCommit, now: Time)
    requires commit.code in p.codes && p.codes[commit.code].expiresAt > now && commit.refresh.Some?
    requires p.codes[commit.code].consumedAt == ZERO_TIME && now != ZERO_TIME
    requires commit.code in Prune(p, now).codes
    ensures !Alike(p, Exchanged(Prune(p, now), commit, now), now)
  {
    hide PruneConsents, PruneRefresh, PruneAuthorizations, BlankAuthorizations, BlankConsents;
    var k := commit.code;
    var a, b := Prune(Blank(p), now), Prune(Blank(Exchanged(Prune(p, now), commit, now)), now);
    assert k in a.codes && a.codes[k].consumedAt == ZERO_TIME;
    assert k in b.codes && b.codes[k].consumedAt == now;
  }

  // -------------------------------------------------------------------------
  // Rotation
  // -------------------------------------------------------------------------

  /** The rotation would go through but for its successor's digest. */
  predicate Rotates(current: Grant, rotation: Rotation, policy: StatePolicy, now: Time) {
    && current.familyID == rotation.familyID && current.generation == rotation.generation && current.Active()
    && ValidateRefreshRotation(current, rotation, now) == Ok
    && rotation.successor.generation < policy.capacity.maxRefreshGenerations
  }

  ghost predicate RotationAnswersDiffer(p: State, rotation: Rotation, policy: StatePolicy, now: Time) {
    var q := Prune(p, now);
    && rotation.current in p.refresh
    && (rotation.current !in q.refresh || RotationDiverges(p, rotation, policy, now))
  }

  ghost predicate RotationDiverges(p: State, rotation: Rotation, policy: StatePolicy, now: Time) {
    && rotation.current in p.refresh && Rotates(p.refresh[rotation.current], rotation, policy, now)
    && rotation.successor.digest in p.refresh && rotation.successor.digest !in Prune(p, now).refresh
  }

  lemma RotationReadings(p: State, rotation: Rotation, policy: StatePolicy, now: Time)
    requires now > ZERO_TIME
    ensures CommitRefreshRotation(p, rotation, policy, now).1
            != CommitRefreshRotation(Prune(p, now), rotation, policy, now).1
            <==> RotationAnswersDiffer(p, rotation, policy, now)
    ensures Alike(CommitRefreshRotation(p, rotation, policy, now).0,
                  CommitRefreshRotation(Prune(p, now), rotation, policy, now).0, now)
            <==> !RotationDiverges(p, rotation, policy, now)
  {
    hide Prune, ValidateRefreshRotation, Alike, RevokeFamily;
    var q, d := Prune(p, now), rotation.current;
    FewerRows(p, now);
    PruneTwice(p, now);
    SameIsAlike(p, q, now);
    if d in p.refresh {
      GrantRow(p, d, rotation, now);
      RevokedAlike(p, rotation.familyID, now);
      if d !in q.refresh && p.refresh[d].familyID == rotation.familyID {
        DeadFamilyRevoked(p, d, now);
      }
      if Rotates(p.refresh[d], rotation, policy, now) {
        LiveRotation(p.refresh[d], rotation, now);
        RotationSame(p, rotation, now);
        RotationApart(p, rotation, now);
      }
    }
  }

  lemma GrantRow(p: State, d: CredentialDigest, rotation: Rotation, now: Time)
    requires d in p.refresh
    ensures p.refresh[d].expiresAt > now ==> d in Prune(p, now).refresh
    ensures d in Prune(p, now).refresh ==> Prune(p, now).refresh[d] == p.refresh[d]
    ensures ValidateRefreshRotation(p.refresh[d], rotation, now) == Ok ==> p.refresh[d].expiresAt > now
    ensures ValidateRefreshRotation(p.refresh[d], rotation, now) != Err(NotFound)
  {
    hide IsSubsetOf;
  }

  lemma RevokedAlike(p: State, family: RefreshFamilyID, now: Time)
    ensures Alike(RevokeFamily(p, family, now), RevokeFamily(Prune(p, now), family, now), now)
  {
    hide Prune, RevokeFamily, Alike;
    RevokePrune(p, family, now, now);
    RevokePrune(Prune(p, now), family, now, now);
    PruneTwice(p, now);
    SameIsAlike(RevokeFamily(p, family, now), RevokeFamily(Prune(p, now), family, now), now);
  }

  /** Revoking a family that has expired changes nothing that lives. */
  lemma DeadFamilyRevoked(p: State, d: CredentialDigest, now: Time)
    requires d in p.refresh && d !in Prune(p, now).refresh
    ensures Alike(RevokeFamily(p, p.refresh[d].familyID, now), Prune(p, now), now)
  {
    hide Alike, PruneAuthorizations, PruneConsents, PruneCodes;
    var family := p.refresh[d].familyID;
    RevokePrune(p, family, now, now);
    assert RevokeFamily(Prune(p, now), family, now).refresh == Prune(p, now).refresh;
    PruneTwice(p, now);
    SameIsAlike(RevokeFamily(p, family, now), Prune(p, now), now);
  }

  lemma LiveRotation(current: Grant, rotation: Rotation, now: Time)
    requires ValidateRefreshRotation(current, rotation, now) == Ok
    ensures current.expiresAt > now && rotation.successor.familyID == current.familyID
    ensures rotation.successor.expiresAt == current.expiresAt
  {
    hide IsSubsetOf;
  }

  ghost function Rotated(p: State, rotation: Rotation, now: Time): State
    requires rotation.current in p.refresh
  {
    p.(refresh := p.refresh[rotation.current := p.refresh[rotation.current].(consumedAt := now)]
                  [rotation.successor.digest := rotation.successor])
  }

  lemma SpentGrantPrunes(rows: map<CredentialDigest, Grant>, d: CredentialDigest, now: Time)
    requires d in rows && rows[d].expiresAt > now
    ensures d in PruneRefresh(rows, now) && PruneRefresh(rows, now)[d] == rows[d]
    ensures PruneRefresh(rows[d := rows[d].(consumedAt := now)], now)
            == PruneRefresh(rows, now)[d := rows[d].(consumedAt := now)]
  {
    var rows' := rows[d := rows[d].(consumedAt := now)];
    forall f: RefreshFamilyID
      ensures FamilyLive(rows', f, now) <==> FamilyLive(rows, f, now)
    {
      if h :| h in rows && rows[h].familyID == f && rows[h].expiresAt > now {
        assert h in rows' && rows'[h].familyID == f && rows'[h].expiresAt > now;
      }
    }
    assert FamilyLive(rows, rows[d].familyID, now);
    hide FamilyLive;
  }

  lemma RotationSame(p: State, rotation: Rotation, now: Time)
    requires rotation.current in p.refresh && p.refresh[rotation.current].expiresAt > now && now > ZERO_TIME
    requires rotation.successor.familyID == p.refresh[rotation.current].familyID
    requires rotation.successor.expiresAt > now
    ensures rotation.current in Prune(p, now).refresh
    ensures rotation.successor.digest !in p.refresh ==>
              Alike(Rotated(p, rotation, now), Rotated(Prune(p, now), rotation, now), now)
  {
    hide PruneAuthorizations, PruneConsents, PruneCodes, PruneRefresh, Alike;
    var d, next := rotation.current, rotation.successor;
    var spent := p.(refresh := p.refresh[d := p.refresh[d].(consumedAt := now)]);
    SpentGrantPrunes(p.refresh, d, now);
    SpentGrantPrunes(PruneRefresh(p.refresh, now), d, now);
    PruneTwice(p, now);
    if next.digest !in p.refresh {
      LiveFamilyStays(spent, d, now);
      NewGrantPrunes(spent, next, now);
      assert Prune(spent, now).refresh == Prune(p, now).refresh[d := p.refresh[d].(consumedAt := now)];
      SameIsAlike(Rotated(p, rotation, now), Rotated(Prune(p, now), rotation, now), now);
    }
  }

  lemma LiveFamilyStays(p: State, d: CredentialDigest, now: Time)
    requires d in p.refresh && p.refresh[d].expiresAt > now
    ensures !RevivesFamily(p, p.refresh[d].familyID, now)
  {
    assert FamilyLive(p.refresh, p.refresh[d].familyID, now);
  }

  lemma RotationApart(p: State, rotation: Rotation, now: Time)
    requires rotation.current in p.refresh && p.refresh[rotation.current].expiresAt > now
    requires p.refresh[rotation.current].consumedAt == ZERO_TIME && now > ZERO_TIME
    requires rotation.current in Prune(p, now).refresh
    ensures rotation.successor.digest !in Prune(p, now).refresh ==>
              !Alike(p, Rotated(Prune(p, now), rotation, now), now)
  {
    hide PruneConsents, PruneCodes, PruneAuthorizations, BlankAuthorizations, BlankConsents;
    var d := rotation.current;
    var b := Rotated(Prune(p, now), rotation, now).refresh;
    assert FamilyLive(p.refresh, p.refresh[d].familyID, now);
    assert d in PruneRefresh(p.refresh, now) && PruneRefresh(p.refresh, now)[d].consumedAt == ZERO_TIME;
    if rotation.successor.digest !in Prune(p, now).refresh {
      assert d in b && b[d].consumedAt == now && b[d].expiresAt > now;
      assert FamilyLive(b, b[d].familyID, now);
      assert d in PruneRefresh(b, now) && PruneRefresh(b, now)[d].consumedAt == now;
    }
  }

  // -------------------------------------------------------------------------
  // Inputs
  // -------------------------------------------------------------------------

  /** A table of one consent, which runs out between the readings: refused for room at first, and admitted later. */
  lemma FullThenRoom(auth: Authorization, stale: Consent, key: CredentialDigest, commit: LoginCommit,
                     policy: StatePolicy, t: Time, now: Time)
    requires ValidateLoginCommit(auth, commit.consent, now) == Ok && policy.capacity.maxConsents == 1
    requires 0 < t < stale.expiresAt <= now
    ensures var m := EMPTY.(authorizations := map[commit.transaction := auth], consents := map[key := stale]);
            && Apply(m, Login(commit, t, now), policy).1 == Err(Capacity)
            && Apply(m, Login(commit, now, now), policy).1 == Ok
            && LoginDiverges(Prune(m, t), commit, policy, now)
  {
    hide ValidateLoginCommit;
    var m := EMPTY.(authorizations := map[commit.transaction := auth], consents := map[key := stale]);
    LiveLogin(auth, commit.consent, now);
    assert Prune(m, t) == m && Prune(m, now).authorizations == m.authorizations && Prune(m, now).consents == map[];
    assert |m.consents| == |m.consents.Keys| && m.consents.Keys == {key};
  }

  /** A transaction that runs out between the readings: expired for the one store, unknown to the other. */
  lemma ExpiredOrUnknown(auth: Authorization, commit: LoginCommit, policy: StatePolicy, t: Time, now: Time)
    requires 0 < t < auth.expiresAt <= now && auth.consumedAt == ZERO_TIME
    ensures var m := EMPTY.(authorizations := map[commit.transaction := auth]);
            && Apply(m, Login(commit, t, now), policy).1 == Err(Expired)
            && Apply(m, Login(commit, now, now), policy).1 == Err(NotFound)
            && !LoginDiverges(Prune(m, t), commit, policy, now)
  {
    var m := EMPTY.(authorizations := map[commit.transaction := auth]);
    assert Prune(m, t) == m && Prune(m, now).authorizations == map[];
  }

  // -------------------------------------------------------------------------
  // Any commit
  // -------------------------------------------------------------------------

  /** Exactly when a commit answers differently for its two readings than for the second alone. */
  ghost predicate AnswersDiffer(m: State, e: Event, policy: StatePolicy) {
    match e
    case Login(commit, t, now) => LoginAnswersDiffer(Prune(m, t), commit, policy, now)
    case Decide(commit, t, now) => DecisionAnswersDiffer(Prune(m, t), commit, policy, now)
    case Exchange(commit, t, now) => ExchangeAnswersDiffer(Prune(m, t), commit, policy, now)
    case Rotate(rotation, t, now) => RotationAnswersDiffer(Prune(m, t), rotation, policy, now)
    case _ => false
  }

  /** Exactly when it leaves something else that lives. */
  ghost predicate ReadingsDiverge(m: State, e: Event, policy: StatePolicy) {
    match e
    case Login(commit, t, now) => LoginDiverges(Prune(m, t), commit, policy, now)
    case Decide(commit, t, now) => DecisionDiverges(Prune(m, t), commit, policy, now)
    case Exchange(commit, t, now) => ExchangeDiverges(Prune(m, t), commit, policy, now)
    case Rotate(rotation, t, now) => RotationDiverges(Prune(m, t), rotation, policy, now)
    case _ => false
  }

  lemma TwoReadings(m: State, e: Event, policy: StatePolicy)
    requires ReadsTwice(e) ==> e.pruneAt <= e.now && e.now > ZERO_TIME
    ensures Apply(m, e, policy).1 != Apply(m, AtOnce(e), policy).1 <==> AnswersDiffer(m, e, policy)
    ensures ReadsTwice(e) ==>
              (Alike(Apply(m, e, policy).0, Apply(m, AtOnce(e), policy).0, e.now) <==> !ReadingsDiverge(m, e, policy))
  {
    hide Prune, Alike, CommitLogin, CommitConsent, CommitCodeExchange, CommitRefreshRotation;
    hide LoginAnswersDiffer, DecisionAnswersDiffer, ExchangeAnswersDiffer, RotationAnswersDiffer;
    hide LoginDiverges, DecisionDiverges, ExchangeDiverges, RotationDiverges;
    match e
    case Login(commit, t, now) =>
      PruneAbsorbs(m, t, now);
      LoginReadings(Prune(m, t), commit, policy, now);
    case Decide(commit, t, now) =>
      PruneAbsorbs(m, t, now);
      DecisionReadings(Prune(m, t), commit, policy, now);
    case Exchange(commit, t, now) =>
      PruneAbsorbs(m, t, now);
      ExchangeReadings(Prune(m, t), commit, policy, now);
    case Rotate(rotation, t, now) =>
      PruneAbsorbs(m, t, now);
      RotationReadings(Prune(m, t), rotation, policy, now);
    case _ =>
  }
}
