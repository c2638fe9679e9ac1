/**
 The durable store (`pkg/sqlitestore/store.go`): tables of rows with a JSON payload and
 nullable `consumed_at` and `revoked_at` columns. A call works on a transaction's copy of the
 tables and either commits the copy or drops it. Times are compared as text.
 */
module SqliteStore {
  import opened Scopes
  import opened Model
  import opened TextOrder
  import opened Timestamps
  import opened Transitions
  import Spec = StoreSpec

  type Column = Option<Time>

  /** The payload is what JSON keeps: `Token` is not part of it, and encoding restores the rest. */
  datatype ClientRow = ClientRow(payload: Client, lastUsedAt: Time)
  datatype AuthorizationRow = AuthorizationRow(payload: Authorization, consumedAt: Column)
  datatype ConsentRow = ConsentRow(payload: Consent, consumedAt: Column)
  datatype CodeRow = CodeRow(payload: Code, consumedAt: Column)
  datatype GrantRow = GrantRow(familyID: RefreshFamilyID, generation: uint64, payload: Grant,
                               consumedAt: Column, revokedAt: Column)

  datatype Tables = Tables(
    clients: map<ClientID, ClientRow>,
    authorizations: map<CredentialDigest, AuthorizationRow>,
    consents: map<CredentialDigest, ConsentRow>,
    codes: map<CredentialDigest, CodeRow>,
    refresh: map<CredentialDigest, GrantRow>)

  // -------------------------------------------------------------------------
  // Reading rows back
  // -------------------------------------------------------------------------

  /** A column that is not null overrides the field of the payload. */
  function Field(column: Column, field: Time): Time {
    if column.Some? then column.value else field
  }

  function DecodeClient(row: ClientRow): Client {
    row.payload.(lastUsedAt := row.lastUsedAt)
  }

  function DecodeAuthorization(row: AuthorizationRow): Authorization {
    row.payload.(consumedAt := Field(row.consumedAt, row.payload.consumedAt))
  }

  function DecodeConsent(row: ConsentRow): Consent {
    row.payload.(consumedAt := Field(row.consumedAt, row.payload.consumedAt))
  }

  function DecodeCode(row: CodeRow): Code {
    row.payload.(consumedAt := Field(row.consumedAt, row.payload.consumedAt))
  }

  function DecodeGrant(row: GrantRow): Grant {
    row.payload.(consumedAt := Field(row.consumedAt, row.payload.consumedAt),
                 revokedAt := Field(row.revokedAt, row.payload.revokedAt))
  }

  ghost function ViewClients(rows: map<ClientID, ClientRow>): map<ClientID, Client> {
    map id | id in rows :: DecodeClient(rows[id])
  }

  ghost function ViewAuthorizations(rows: map<CredentialDigest, AuthorizationRow>)
    : map<CredentialDigest, Authorization>
  {
    map d | d in rows :: DecodeAuthorization(rows[d])
  }

  ghost function ViewConsents(rows: map<CredentialDigest, ConsentRow>): map<CredentialDigest, Consent> {
    map d | d in rows :: DecodeConsent(rows[d])
  }

  ghost function ViewCodes(rows: map<CredentialDigest, CodeRow>): map<CredentialDigest, Code> {
    map d | d in rows :: DecodeCode(rows[d])
  }

  ghost function ViewGrants(rows: map<CredentialDigest, GrantRow>): map<CredentialDigest, Grant> {
    map d | d in rows :: DecodeGrant(rows[d])
  }

  /** The store state that the tables stand for. */
  ghost function View(t: Tables): Spec.State {
    Spec.State(ViewClients(t.clients), ViewAuthorizations(t.authorizations), ViewConsents(t.consents),
               ViewCodes(t.codes), ViewGrants(t.refresh))
  }

  /** No token is written, and no column holds the zero time. */
  ghost predicate AuthorizationsSound(rows: map<CredentialDigest, AuthorizationRow>) {
    forall d | d in rows :: rows[d].payload.token == "" && rows[d].consumedAt != Some(ZERO_TIME)
  }

  ghost predicate ConsentsSound(rows: map<CredentialDigest, ConsentRow>) {
    forall d | d in rows :: rows[d].payload.token == "" && rows[d].consumedAt != Some(ZERO_TIME)
  }

  ghost predicate CodesSound(rows: map<CredentialDigest, CodeRow>) {
    forall d | d in rows :: rows[d].consumedAt != Some(ZERO_TIME)
  }

  /** Grants are inserted unspent, and a grant row repeats its payload's family and generation. */
  ghost predicate GrantSound(row: GrantRow) {
    && row.payload.Active() && row.consumedAt != Some(ZERO_TIME) && row.revokedAt != Some(ZERO_TIME)
    && row.familyID == row.payload.familyID && row.generation == row.payload.generation
  }

  ghost predicate GrantsSound(rows: map<CredentialDigest, GrantRow>) {
    forall d | d in rows :: GrantSound(rows[d])
  }

  ghost predicate Sound(t: Tables) {
    AuthorizationsSound(t.authorizations) && ConsentsSound(t.consents) && CodesSound(t.codes) && GrantsSound(t.refresh)
  }

  lemma ViewKeys(t: Tables)
    ensures View(t).clients.Keys == t.clients.Keys && |View(t).clients| == |t.clients|
    ensures View(t).authorizations.Keys == t.authorizations.Keys && |View(t).authorizations| == |t.authorizations|
    ensures View(t).consents.Keys == t.consents.Keys && |View(t).consents| == |t.consents|
    ensures View(t).codes.Keys == t.codes.Keys && |View(t).codes| == |t.codes|
    ensures View(t).refresh.Keys == t.refresh.Keys && |View(t).refresh| == |t.refresh|
  {
    SameSize(ViewClients(t.clients), t.clients);
    SameSize(ViewAuthorizations(t.authorizations), t.authorizations);
    SameSize(ViewConsents(t.consents), t.consents);
    SameSize(ViewCodes(t.codes), t.codes);
    SameSize(ViewGrants(t.refresh), t.refresh);
  }

  lemma SameSize<K, A, B>(a: map<K, A>, b: map<K, B>)
    requires a.Keys == b.Keys
    ensures |a| == |b|
  {
    assert |a| == |a.Keys| && |b| == |b.Keys|;
  }

  // -------------------------------------------------------------------------
  // Statements
  // -------------------------------------------------------------------------

  /** The text of an instant; instants before the zero time have none and sort first. */
  function Stamp(t: Time): string {
    if t >= 0 then Format(t) else ""
  }

  /** SQL's `<=` on two time columns. */
  predicate StampAtMost(a: Time, b: Time) {
    AtMost(Stamp(a), Stamp(b))
  }

  /** `HAVING MAX(ExpiresAt) <= cutoff` for one family. */
  predicate FamilyDone(rows: map<CredentialDigest, GrantRow>, family: RefreshFamilyID, now: Time) {
    forall d | d in rows && rows[d].familyID == family :: StampAtMost(rows[d].payload.expiresAt, now)
  }

  /** Some row of the family has a text after the cutoff's. */
  predicate OutlivedBySome(rows: map<CredentialDigest, GrantRow>, family: RefreshFamilyID, now: Time) {
    exists d | d in rows :: rows[d].familyID == family && !StampAtMost(rows[d].payload.expiresAt, now)
  }

  function PruneGrantRows(rows: map<CredentialDigest, GrantRow>, now: Time): map<CredentialDigest, GrantRow> {
    map d | d in rows && !FamilyDone(rows, rows[d].familyID, now) :: rows[d]
  }

  function PruneTx(tx: Tables, now: Time): Tables {
    tx.(authorizations := map d | d in tx.authorizations && !StampAtMost(tx.authorizations[d].payload.expiresAt, now)
                            :: tx.authorizations[d],
        consents := map d | d in tx.consents && !StampAtMost(tx.consents[d].payload.expiresAt, now) :: tx.consents[d],
        codes := map d | d in tx.codes && !StampAtMost(tx.codes[d].payload.expiresAt, now) :: tx.codes[d],
        refresh := PruneGrantRows(tx.refresh, now))
  }

  /** The sub-select of `pruneClientsTx`: rows that are unspent by their column and not yet expired. */
  predicate Protected(tx: Tables, id: ClientID, now: Time) {
    || (exists d | d in tx.authorizations :: tx.authorizations[d].payload.clientID == id
          && tx.authorizations[d].consumedAt.None? && !StampAtMost(tx.authorizations[d].payload.expiresAt, now))
    || (exists d | d in tx.consents :: tx.consents[d].payload.client.id == id
          && tx.consents[d].consumedAt.None? && !StampAtMost(tx.consents[d].payload.expiresAt, now))
    || (exists d | d in tx.codes :: tx.codes[d].payload.clientID == id
          && tx.codes[d].consumedAt.None? && !StampAtMost(tx.codes[d].payload.expiresAt, now))
    || (exists d | d in tx.refresh :: tx.refresh[d].payload.clientID == id
          && tx.refresh[d].revokedAt.None? && !StampAtMost(tx.refresh[d].payload.expiresAt, now))
  }

  function PruneClientsTx(tx: Tables, policy: RegistrationPolicy, now: Time): Tables {
    var cutoff := now - policy.unverifiedClientTTL;
    tx.(clients := map id | id in tx.clients
                     && !(StampAtMost(tx.clients[id].lastUsedAt, cutoff) && tx.clients[id].payload.trust == Unverified
                          && !Protected(tx, id, now)) :: tx.clients[id])
  }

  /** `SET consumed_at = ? ... AND consumed_at IS NULL` on one row. */
  function Mark(column: Column, now: Time): Column {
    if column.None? then Some(now) else column
  }

  function RevokeFamilyRows(rows: map<CredentialDigest, GrantRow>, family: RefreshFamilyID, at: Time)
    : map<CredentialDigest, GrantRow>
  {
    map d | d in rows ::
      if rows[d].familyID == family && rows[d].revokedAt.None? then rows[d].(revokedAt := Some(at)) else rows[d]
  }

  function ActiveRows(rows: map<CredentialDigest, GrantRow>): set<CredentialDigest> {
    set d | d in rows && rows[d].consumedAt.None? && rows[d].revokedAt.None?
  }

  // -------------------------------------------------------------------------
  // What a call promises
  // -------------------------------------------------------------------------

  /** Tokens are not written to the payload. */
  ghost function BlankAuthorizations(rows: map<CredentialDigest, Authorization>): map<CredentialDigest, Authorization> {
    map d | d in rows :: rows[d].(token := "")
  }

  ghost function BlankConsents(rows: map<CredentialDigest, Consent>): map<CredentialDigest, Consent> {
    map d | d in rows :: rows[d].(token := "")
  }

  ghost function Blank(s: Spec.State): Spec.State {
    s.(authorizations := BlankAuthorizations(s.authorizations), consents := BlankConsents(s.consents))
  }

  /** The specification's commit on the tables as pruned inside the transaction. */
  ghost function Attempt(t: Tables, e: Spec.Event, policy: StatePolicy): (Spec.State, Outcome) {
    match e
    case Register(client, now) =>
      Spec.RegisterClient(View(PruneClientsTx(PruneTx(t, now), policy.registration, now)), client, policy)
    case Touch(id, at) => Spec.TouchClient(View(t), id, at)
    case Create(auth, now) => Spec.CreateAuthorization(View(PruneTx(t, now)), auth, policy)
    case Login(commit, _, now) => Spec.CommitLogin(View(PruneTx(t, now)), commit, policy, now)
    case Decide(commit, _, now) => Spec.CommitConsent(View(PruneTx(t, now)), commit, policy, now)
    case Exchange(commit, _, now) => Spec.CommitCodeExchange(View(PruneTx(t, now)), commit, policy, now)
    case Rotate(rotation, _, now) => Spec.CommitRefreshRotation(View(PruneTx(t, now)), rotation, policy, now)
    case Revoke(family, at) => (Spec.RevokeFamily(View(t), family, at), Ok)
    case Sweep(now) => (View(PruneTx(t, now)), Ok)
  }

  /**
   The call answers what the specification answers; it commits when that succeeds, or when a
   rotation is refused as revoked, and otherwise rolls back to exactly the tables before it.
   */
  ghost predicate Performs(t: Tables, t': Tables, r: Outcome, e: Spec.Event, policy: StatePolicy) {
    && r == Attempt(t, e, policy).1
    && if r.Ok? || (e.Rotate? && r == Err(Revoked)) then View(t') == Blank(Attempt(t, e, policy).0) else t' == t
  }

  // -------------------------------------------------------------------------
  // Statements seen through the view
  // -------------------------------------------------------------------------

  lemma PutAuthorization(rows: map<CredentialDigest, AuthorizationRow>, d: CredentialDigest, row: AuthorizationRow)
    ensures ViewAuthorizations(rows[d := row]) == ViewAuthorizations(rows)[d := DecodeAuthorization(row)]
    ensures AuthorizationsSound(rows) && row.payload.token == "" && row.consumedAt != Some(ZERO_TIME)
            ==> AuthorizationsSound(rows[d := row])
  {
  }

  lemma PutConsent(rows: map<CredentialDigest, ConsentRow>, d: CredentialDigest, row: ConsentRow)
    ensures ViewConsents(rows[d := row]) == ViewConsents(rows)[d := DecodeConsent(row)]
    ensures ConsentsSound(rows) && row.payload.token == "" && row.consumedAt != Some(ZERO_TIME)
            ==> ConsentsSound(rows[d := row])
  {
  }

  lemma PutCode(rows: map<CredentialDigest, CodeRow>, d: CredentialDigest, row: CodeRow)
    ensures ViewCodes(rows[d := row]) == ViewCodes(rows)[d := DecodeCode(row)]
    ensures CodesSound(rows) && row.consumedAt != Some(ZERO_TIME) ==> CodesSound(rows[d := row])
  {
  }

  lemma PutGrant(rows: map<CredentialDigest, GrantRow>, d: CredentialDigest, row: GrantRow)
    ensures ViewGrants(rows[d := row]) == ViewGrants(rows)[d := DecodeGrant(row)]
    ensures GrantsSound(rows) && GrantSound(row) ==> GrantsSound(rows[d := row])
  {
  }

  lemma ViewOfClient(rows: map<ClientID, ClientRow>, id: ClientID)
    requires id in rows
    ensures id in ViewClients(rows) && ViewClients(rows)[id] == DecodeClient(rows[id])
  {
  }

  lemma ViewOfAuthorization(rows: map<CredentialDigest, AuthorizationRow>, d: CredentialDigest)
    requires d in rows
    ensures d in ViewAuthorizations(rows) && ViewAuthorizations(rows)[d] == DecodeAuthorization(rows[d])
    ensures AuthorizationsSound(rows) ==> rows[d].consumedAt != Some(ZERO_TIME) && rows[d].payload.token == ""
  {
  }

  lemma ViewOfConsent(rows: map<CredentialDigest, ConsentRow>, d: CredentialDigest)
    requires d in rows
    ensures d in ViewConsents(rows) && ViewConsents(rows)[d] == DecodeConsent(rows[d])
    ensures ConsentsSound(rows) ==> rows[d].consumedAt != Some(ZERO_TIME) && rows[d].payload.token == ""
  {
  }

  lemma ViewOfCode(rows: map<CredentialDigest, CodeRow>, d: CredentialDigest)
    requires d in rows
    ensures d in ViewCodes(rows) && ViewCodes(rows)[d] == DecodeCode(rows[d])
    ensures CodesSound(rows) ==> rows[d].consumedAt != Some(ZERO_TIME)
  {
  }

  lemma ViewOfGrant(rows: map<CredentialDigest, GrantRow>, d: CredentialDigest)
    requires d in rows
    ensures d in ViewGrants(rows) && ViewGrants(rows)[d] == DecodeGrant(rows[d])
    ensures GrantsSound(rows) ==> GrantSound(rows[d])
  {
  }

  lemma BlankView(t: Tables)
    requires Sound(t)
    ensures Blank(View(t)) == View(t)
  {
  }

  lemma PutBlankAuthorization(rows: map<CredentialDigest, Authorization>, d: CredentialDigest, a: Authorization)
    ensures BlankAuthorizations(rows[d := a]) == BlankAuthorizations(rows)[d := a.(token := "")]
  {
  }

  lemma PutBlankConsent(rows: map<CredentialDigest, Consent>, d: CredentialDigest, c: Consent)
    ensures BlankConsents(rows[d := c]) == BlankConsents(rows)[d := c.(token := "")]
  {
  }

  lemma PruneTxSound(t: Tables, now: Time)
    requires Sound(t)
    ensures Sound(PruneTx(t, now))
  {
  }

  lemma PruneClientsTxSound(t: Tables, policy: RegistrationPolicy, now: Time)
    requires Sound(t)
    ensures Sound(PruneClientsTx(t, policy, now))
  {
  }

  lemma PutClient(rows: map<ClientID, ClientRow>, id: ClientID, row: ClientRow)
    ensures ViewClients(rows[id := row]) == ViewClients(rows)[id := DecodeClient(row)]
  {
  }

  lemma ActiveRowsCount(rows: map<CredentialDigest, GrantRow>)
    requires GrantsSound(rows)
    ensures Spec.ActiveGrants(ViewGrants(rows)) == ActiveRows(rows)
  {
  }

  lemma RevokeRowsView(rows: map<CredentialDigest, GrantRow>, family: RefreshFamilyID, at: Time)
    requires GrantsSound(rows) && at != ZERO_TIME
    ensures ViewGrants(RevokeFamilyRows(rows, family, at)) == Spec.RevokeRows(ViewGrants(rows), family, at)
    ensures GrantsSound(RevokeFamilyRows(rows, family, at))
  {
  }

  // -------------------------------------------------------------------------
  // What a call may write
  // -------------------------------------------------------------------------

  /** A row is an old one, but for its columns, or holds the record that the call brings. */
  ghost predicate ClientFrom(rows: map<ClientID, ClientRow>, id: ClientID, row: ClientRow, e: Spec.Event) {
    || (id in rows && row.payload == rows[id].payload
        && (row.lastUsedAt == rows[id].lastUsedAt || (e.Touch? && row.lastUsedAt == e.at)))
    || (e.Register? && row == ClientRow(e.client, e.client.lastUsedAt))
  }

  ghost predicate AuthorizationFrom(rows: map<CredentialDigest, AuthorizationRow>, d: CredentialDigest,
                                    payload: Authorization, e: Spec.Event)
  {
    (d in rows && payload == rows[d].payload) || (e.Create? && payload == e.auth.(token := ""))
  }

  ghost predicate ConsentFrom(rows: map<CredentialDigest, ConsentRow>, d: CredentialDigest, payload: Consent,
                              e: Spec.Event)
  {
    (d in rows && payload == rows[d].payload) || (e.Login? && payload == e.login.consent.(token := ""))
  }

  ghost predicate CodeFrom(rows: map<CredentialDigest, CodeRow>, d: CredentialDigest, payload: Code, e: Spec.Event) {
    (d in rows && payload == rows[d].payload) || (e.Decide? && e.decide.decision == Approve && payload == e.decide.code)
  }

  ghost predicate GrantFrom(rows: map<CredentialDigest, GrantRow>, d: CredentialDigest, payload: Grant, e: Spec.Event) {
    || (d in rows && payload == rows[d].payload)
    || (e.Exchange? && e.exchange.refresh == Some(payload))
    || (e.Rotate? && payload == e.rotation.successor)
  }

  ghost predicate Writes(t: Tables, t': Tables, e: Spec.Event) {
    && (forall id | id in t'.clients :: ClientFrom(t.clients, id, t'.clients[id], e))
    && (forall d | d in t'.authorizations :: AuthorizationFrom(t.authorizations, d, t'.authorizations[d].payload, e))
    && (forall d | d in t'.consents :: ConsentFrom(t.consents, d, t'.consents[d].payload, e))
    && (forall d | d in t'.codes :: CodeFrom(t.codes, d, t'.codes[d].payload, e))
    && (forall d | d in t'.refresh :: GrantFrom(t.refresh, d, t'.refresh[d].payload, e))
  }

  lemma WritesNothing(t: Tables, e: Spec.Event)
    ensures Writes(t, t, e)
  {
    assert Within(t.authorizations, t.authorizations) && Within(t.consents, t.consents);
    assert Within(t.codes, t.codes) && Within(t.refresh, t.refresh);
    hide Writes, Within;
    WritesWithin(t, t, e);
  }

  /** Tables whose rows are rows of the old ones. */
  ghost predicate Within<V(!new)>(kept: map<CredentialDigest, V>, rows: map<CredentialDigest, V>) {
    forall d | d in kept :: d in rows && kept[d] == rows[d]
  }

  /** Row by row, what the statements of a prune keep. */
  ghost predicate OnlyUnexpired(t: Tables, tx: Tables, now: Time) {
    && tx.clients == t.clients
    && (forall d :: d in tx.authorizations
          <==> d in t.authorizations && !StampAtMost(t.authorizations[d].payload.expiresAt, now))
    && (forall d :: d in tx.consents <==> d in t.consents && !StampAtMost(t.consents[d].payload.expiresAt, now))
    && (forall d :: d in tx.codes <==> d in t.codes && !StampAtMost(t.codes[d].payload.expiresAt, now))
    && (forall d :: d in tx.refresh <==> d in t.refresh && OutlivedBySome(t.refresh, t.refresh[d].familyID, now))
  }

  lemma PruneTxRows(t: Tables, now: Time)
    ensures OnlyUnexpired(t, PruneTx(t, now), now)
  {
    hide StampAtMost;
  }

  lemma AuthorizationsWithin(rows: map<CredentialDigest, AuthorizationRow>,
                             kept: map<CredentialDigest, AuthorizationRow>, e: Spec.Event)
    requires Within(kept, rows)
    ensures forall d | d in kept :: AuthorizationFrom(rows, d, kept[d].payload, e)
  {
  }

  lemma ConsentsWithin(rows: map<CredentialDigest, ConsentRow>, kept: map<CredentialDigest, ConsentRow>, e: Spec.Event)
    requires Within(kept, rows)
    ensures forall d | d in kept :: ConsentFrom(rows, d, kept[d].payload, e)
  {
  }

  lemma CodesWithin(rows: map<CredentialDigest, CodeRow>, kept: map<CredentialDigest, CodeRow>, e: Spec.Event)
    requires Within(kept, rows)
    ensures forall d | d in kept :: CodeFrom(rows, d, kept[d].payload, e)
  {
  }

  lemma GrantsWithin(rows: map<CredentialDigest, GrantRow>, kept: map<CredentialDigest, GrantRow>, e: Spec.Event)
    requires Within(kept, rows)
    ensures forall d | d in kept :: GrantFrom(rows, d, kept[d].payload, e)
  {
  }

  lemma WritesWithin(t: Tables, tx: Tables, e: Spec.Event)
    requires tx.clients == t.clients
    requires Within(tx.authorizations, t.authorizations) && Within(tx.consents, t.consents)
    requires Within(tx.codes, t.codes) && Within(tx.refresh, t.refresh)
    ensures Writes(t, tx, e)
  {
    hide Within, AuthorizationFrom, ConsentFrom, CodeFrom, GrantFrom;
    AuthorizationsWithin(t.authorizations, tx.authorizations, e);
    ConsentsWithin(t.consents, tx.consents, e);
    CodesWithin(t.codes, tx.codes, e);
    GrantsWithin(t.refresh, tx.refresh, e);
  }

  lemma PruneIsWithin(t: Tables, now: Time)
    ensures var tx := PruneTx(t, now);
            && Within(tx.authorizations, t.authorizations) && Within(tx.consents, t.consents)
            && Within(tx.codes, t.codes) && Within(tx.refresh, t.refresh)
  {
    hide StampAtMost, FamilyDone;
  }

  lemma WritesPrune(t: Tables, now: Time, e: Spec.Event)
    ensures Writes(t, PruneTx(t, now), e)
  {
    hide Within, Writes, StampAtMost, PruneGrantRows;
    PruneIsWithin(t, now);
    WritesWithin(t, PruneTx(t, now), e);
  }

  lemma WritesPruneClients(t: Tables, tx: Tables, policy: RegistrationPolicy, now: Time, e: Spec.Event)
    requires Writes(t, tx, e)
    ensures Writes(t, PruneClientsTx(tx, policy, now), e)
  {
    hide StampAtMost, Protected, ClientFrom, AuthorizationFrom, ConsentFrom, CodeFrom, GrantFrom;
  }

  lemma WritesClient(t: Tables, tx: Tables, id: ClientID, row: ClientRow, e: Spec.Event)
    requires Writes(t, tx, e) && ClientFrom(t.clients, id, row, e)
    ensures Writes(t, tx.(clients := tx.clients[id := row]), e)
  {
    hide ClientFrom, AuthorizationFrom, ConsentFrom, CodeFrom, GrantFrom;
  }

  lemma WritesAuthorization(t: Tables, tx: Tables, d: CredentialDigest, row: AuthorizationRow, e: Spec.Event)
    requires Writes(t, tx, e)
    requires (d in tx.authorizations && row.payload == tx.authorizations[d].payload)
             || (e.Create? && row.payload == e.auth.(token := ""))
    ensures Writes(t, tx.(authorizations := tx.authorizations[d := row]), e)
  {
    hide ClientFrom, ConsentFrom, CodeFrom, GrantFrom;
  }

  lemma WritesConsent(t: Tables, tx: Tables, d: CredentialDigest, row: ConsentRow, e: Spec.Event)
    requires Writes(t, tx, e)
    requires (d in tx.consents && row.payload == tx.consents[d].payload)
             || (e.Login? && row.payload == e.login.consent.(token := ""))
    ensures Writes(t, tx.(consents := tx.consents[d := row]), e)
  {
    hide ClientFrom, AuthorizationFrom, CodeFrom, GrantFrom;
  }

  lemma WritesCode(t: Tables, tx: Tables, d: CredentialDigest, row: CodeRow, e: Spec.Event)
    requires Writes(t, tx, e)
    requires (d in tx.codes && row.payload == tx.codes[d].payload)
             || (e.Decide? && e.decide.decision == Approve && row.payload == e.decide.code)
    ensures Writes(t, tx.(codes := tx.codes[d := row]), e)
  {
    hide ClientFrom, AuthorizationFrom, ConsentFrom, GrantFrom;
  }

  lemma WritesGrant(t: Tables, tx: Tables, d: CredentialDigest, row: GrantRow, e: Spec.Event)
    requires Writes(t, tx, e)
    requires || (d in tx.refresh && row.payload == tx.refresh[d].payload)
             || (e.Exchange? && e.exchange.refresh == Some(row.payload))
             || (e.Rotate? && row.payload == e.rotation.successor)
    ensures Writes(t, tx.(refresh := tx.refresh[d := row]), e)
  {
    hide ClientFrom, AuthorizationFrom, ConsentFrom, CodeFrom;
  }

  /** The two statements of a rotation: the successor inserted, its predecessor marked. */
  lemma PutRotation(t: Tables, tx: Tables, d: CredentialDigest, spent: GrantRow, row: GrantRow, e: Spec.Event)
    requires e.Rotate? && row.payload == e.rotation.successor
    requires d in tx.refresh && spent.payload == tx.refresh[d].payload && row.payload.digest !in tx.refresh
    requires Writes(t, tx, e)
    ensures var rows := tx.refresh[row.payload.digest := row][d := spent];
            && ViewGrants(rows)
               == ViewGrants(tx.refresh)[d := DecodeGrant(spent)][row.payload.digest := DecodeGrant(row)]
            && (GrantsSound(tx.refresh) && GrantSound(row) && GrantSound(spent) ==> GrantsSound(rows))
            && Writes(t, tx.(refresh := rows), e)
  {
    hide Writes, ViewGrants, GrantsSound, DecodeGrant, GrantSound;
    var next := row.payload.digest;
    assert tx.refresh[next := row][d := spent] == tx.refresh[d := spent][next := row];
    PutGrant(tx.refresh, d, spent);
    PutGrant(tx.refresh[d := spent], next, row);
    WritesGrant(t, tx, next, row, e);
    WritesGrant(t, tx.(refresh := tx.refresh[next := row]), d, spent, e);
  }

  lemma WritesRevocation(t: Tables, tx: Tables, family: RefreshFamilyID, at: Time, e: Spec.Event)
    requires Writes(t, tx, e)
    ensures Writes(t, tx.(refresh := RevokeFamilyRows(tx.refresh, family, at)), e)
  {
    hide ClientFrom, AuthorizationFrom, ConsentFrom, CodeFrom, GrantFrom;
  }

  // -------------------------------------------------------------------------
  // The calls
  // -------------------------------------------------------------------------

  class Store {
    var db: Tables

    ghost predicate Valid()
      reads this
    {
      Sound(db)
    }

    constructor ()
      ensures Valid() && db == Tables(map[], map[], map[], map[], map[])
    {
      db := Tables(map[], map[], map[], map[], map[]);
    }

    method GetClient(id: ClientID) returns (r: Option<Client>)
      ensures r == if id in View(db).clients then Some(View(db).clients[id]) else None
    {
      r := if id in db.clients then Some(DecodeClient(db.clients[id])) else None;
    }

    method GetAuthorization(digest: CredentialDigest) returns (r: Option<Authorization>)
      ensures r == if digest in View(db).authorizations then Some(View(db).authorizations[digest]) else None
    {
      r := if digest in db.authorizations then Some(DecodeAuthorization(db.authorizations[digest])) else None;
    }

    method GetConsent(digest: CredentialDigest) returns (r: Option<Consent>)
      ensures r == if digest in View(db).consents then Some(View(db).consents[digest]) else None
    {
      r := if digest in db.consents then Some(DecodeConsent(db.consents[digest])) else None;
    }

    method GetCodeForExchange(digest: CredentialDigest, clientID: ClientID, redirectURI: RedirectURI)
      returns (r: Option<Code>)
      ensures r.Some? <==> digest in View(db).codes && View(db).codes[digest].clientID == clientID
                           && View(db).codes[digest].redirectURI == redirectURI
      ensures r.Some? ==> r.value == View(db).codes[digest]
    {
      if digest !in db.codes {
        return None;
      }
      var payload := db.codes[digest].payload;
      if payload.clientID != clientID || payload.redirectURI != redirectURI {
        return None;
      }
      r := Some(DecodeCode(db.codes[digest]));
    }

    method GetRefreshGrant(digest: CredentialDigest) returns (r: Option<Grant>)
      ensures r == if digest in View(db).refresh then Some(View(db).refresh[digest]) else None
    {
      r := if digest in db.refresh then Some(DecodeGrant(db.refresh[digest])) else None;
    }

    method RegisterClient(client: Client, policy: StatePolicy, now: Time) returns (r: Outcome)
      requires Valid()
      modifies this
      ensures Valid() && Performs(old(db), db, r, Spec.Register(client, now), policy)
      ensures Writes(old(db), db, Spec.Register(client, now))
    {
      hide Writes;
      hide Spec.TouchClient, Spec.CreateAuthorization, Spec.CommitLogin, Spec.CommitConsent;
      hide Spec.CommitCodeExchange, Spec.CommitRefreshRotation;
      ghost var t, e := db, Spec.Register(client, now);
      WritesNothing(t, e);
      hide PruneTx, ViewClients, ViewAuthorizations, ViewConsents, ViewCodes, ViewGrants;
      hide BlankAuthorizations, BlankConsents, AuthorizationsSound, ConsentsSound, CodesSound, GrantsSound;
      hide PruneClientsTx;
      var tx := PruneTx(db, now);
      PruneTxSound(db, now);
      WritesPrune(db, now, e);
      PruneClientsTxSound(tx, policy.registration, now);
      WritesPruneClients(t, tx, policy.registration, now, e);
      tx := PruneClientsTx(tx, policy.registration, now);
      ViewKeys(tx);
      BlankView(tx);
      if |tx.clients| >= policy.registration.maxClients {
        return Err(Capacity);
      }
      if client.id in tx.clients {
        return Err(Conflict);
      }
      var row := ClientRow(client, client.lastUsedAt);
      PutClient(tx.clients, client.id, row);
      WritesClient(t, tx, client.id, row, e);
      tx := tx.(clients := tx.clients[client.id := row]);
      db := tx;
      r := Ok;
    }

    method TouchClient(id: ClientID, at: Time, ghost policy: StatePolicy) returns (r: Outcome)
      requires Valid()
      modifies this
      ensures Valid() && Performs(old(db), db, r, Spec.Touch(id, at), policy)
      ensures Writes(old(db), db, Spec.Touch(id, at))
    {
      hide Writes;
      hide Spec.RegisterClient, Spec.CreateAuthorization, Spec.CommitLogin, Spec.CommitConsent;
      hide Spec.CommitCodeExchange, Spec.CommitRefreshRotation;
      ghost var t, e := db, Spec.Touch(id, at);
      WritesNothing(t, e);
      hide PruneTx, ViewClients, ViewAuthorizations, ViewConsents, ViewCodes, ViewGrants;
      hide BlankAuthorizations, BlankConsents, AuthorizationsSound, ConsentsSound, CodesSound, GrantsSound;
      ViewKeys(db);
      BlankView(db);
      if id !in db.clients {
        return Err(NotFound);
      }
      var row := db.clients[id].(lastUsedAt := at);
      PutClient(db.clients, id, row);
      assert View(db).clients[id] == DecodeClient(db.clients[id]) by {
        ViewOfClient(db.clients, id);
      }
      WritesClient(t, db, id, row, e);
      db := db.(clients := db.clients[id := row]);
      r := Ok;
    }

    method CreateAuthorization(auth: Authorization, policy: StatePolicy, now: Time) returns (r: Outcome)
      requires Valid()
      modifies this
      ensures Valid() && Performs(old(db), db, r, Spec.Create(auth, now), policy)
      ensures Writes(old(db), db, Spec.Create(auth, now))
    {
      hide Writes;
      hide Spec.RegisterClient, Spec.TouchClient, Spec.CommitLogin, Spec.CommitConsent;
      hide Spec.CommitCodeExchange, Spec.CommitRefreshRotation;
      ghost var t, e := db, Spec.Create(auth, now);
      WritesNothing(t, e);
      hide PruneTx, ViewClients, ViewAuthorizations, ViewConsents, ViewCodes, ViewGrants;
      hide BlankAuthorizations, BlankConsents, AuthorizationsSound, ConsentsSound, CodesSound, GrantsSound;
      var tx := PruneTx(db, now);
      PruneTxSound(db, now);
      WritesPrune(db, now, e);
      ViewKeys(tx);
      BlankView(tx);
      if |tx.authorizations| >= policy.capacity.maxAuthorizations {
        return Err(Capacity);
      }
      var digest := DigestCredential(auth.token);
      if digest in tx.authorizations {
        return Err(Conflict);
      }
      var row := AuthorizationRow(auth.(token := ""), None);
      PutAuthorization(tx.authorizations, digest, row);
      PutBlankAuthorization(View(tx).authorizations, digest, auth);
      WritesAuthorization(t, tx, digest, row, e);
      tx := tx.(authorizations := tx.authorizations[digest := row]);
      db := tx;
      r := Ok;
    }

    method CommitLogin(commit: LoginCommit, policy: StatePolicy, now: Time) returns (r: Outcome)
      requires Valid() && now != ZERO_TIME
      modifies this
      ensures Valid() && Performs(old(db), db, r, Spec.Login(commit, now, now), policy)
      ensures Writes(old(db), db, Spec.Login(commit, now, now))
    {
      hide Writes;
      hide Spec.RegisterClient, Spec.TouchClient, Spec.CreateAuthorization, Spec.CommitConsent;
      hide Spec.CommitCodeExchange, Spec.CommitRefreshRotation;
      ghost var t, e := db, Spec.Login(commit, now, now);
      WritesNothing(t, e);
      hide PruneTx, ViewClients, ViewAuthorizations, ViewConsents, ViewCodes, ViewGrants;
      hide BlankAuthorizations, BlankConsents, AuthorizationsSound, ConsentsSound, CodesSound, GrantsSound;
      var tx := PruneTx(db, now);
      PruneTxSound(db, now);
      WritesPrune(db, now, e);
      ViewKeys(tx);
      BlankView(tx);
      if commit.transaction !in tx.authorizations {
        return Err(NotFound);
      }
      var stored := tx.authorizations[commit.transaction];
      var authorization := DecodeAuthorization(stored);
      ViewOfAuthorization(tx.authorizations, commit.transaction);
      var verdict := ValidateLoginCommit(authorization, commit.consent, now);
      if verdict.Err? {
        return verdict;
      }
      if |tx.consents| >= policy.capacity.maxConsents {
        return Err(Capacity);
      }
      var digest := DigestCredential(commit.consent.token);
      if digest in tx.consents {
        return Err(Conflict);
      }
      var row := ConsentRow(commit.consent.(token := ""), None);
      var spent := stored.(consumedAt := Mark(stored.consumedAt, now));
      PutConsent(tx.consents, digest, row);
      PutAuthorization(tx.authorizations, commit.transaction, spent);
      PutBlankConsent(View(tx).consents, digest, commit.consent);
      PutBlankAuthorization(View(tx).authorizations, commit.transaction, authorization.(consumedAt := now));
      WritesConsent(t, tx, digest, row, e);
      tx := tx.(consents := tx.consents[digest := row]);
      WritesAuthorization(t, tx, commit.transaction, spent, e);
      tx := tx.(authorizations := tx.authorizations[commit.transaction := spent]);
      db := tx;
      r := Ok;
    }

    /** Unlike the memory store, a successful decision answers an empty redirect URI. */
    method CommitConsent(commit: ConsentCommit, policy: StatePolicy, now: Time)
      returns (r: Outcome, redirectURI: RedirectURI)
      requires Valid() && now != ZERO_TIME
      modifies this
      ensures Valid() && Performs(old(db), db, r, Spec.Decide(commit, now, now), policy)
      ensures Writes(old(db), db, Spec.Decide(commit, now, now))
      ensures redirectURI == ""
    {
      hide Writes;
      hide Spec.RegisterClient, Spec.TouchClient, Spec.CreateAuthorization, Spec.CommitLogin;
      hide Spec.CommitCodeExchange, Spec.CommitRefreshRotation;
      ghost var t, e := db, Spec.Decide(commit, now, now);
      WritesNothing(t, e);
      hide PruneTx, ViewClients, ViewAuthorizations, ViewConsents, ViewCodes, ViewGrants;
      hide BlankAuthorizations, BlankConsents, AuthorizationsSound, ConsentsSound, CodesSound, GrantsSound;
      var tx := PruneTx(db, now);
      PruneTxSound(db, now);
      WritesPrune(db, now, e);
      ViewKeys(tx);
      BlankView(tx);
      redirectURI := "";
      if commit.consent !in tx.consents {
        r := Err(NotFound);
        return;
      }
      var stored := tx.consents[commit.consent];
      var session := DecodeConsent(stored);
      ViewOfConsent(tx.consents, commit.consent);
      var verdict := ValidateConsentCommit(session, commit, now);
      if verdict.Err? {
        r := verdict;
        return;
      }
      if commit.decision == Approve {
        if |tx.codes| >= policy.capacity.maxCodes {
          r := Err(Capacity);
          return;
        }
        if commit.code.digest in tx.codes {
          r := Err(Conflict);
          return;
        }
        PutCode(tx.codes, commit.code.digest, CodeRow(commit.code, None));
        WritesCode(t, tx, commit.code.digest, CodeRow(commit.code, None), e);
        tx := tx.(codes := tx.codes[commit.code.digest := CodeRow(commit.code, None)]);
      }
      var spent := stored.(consumedAt := Mark(stored.consumedAt, now));
      PutConsent(tx.consents, commit.consent, spent);
      PutBlankConsent(View(tx).consents, commit.consent, session.(consumedAt := now));
      WritesConsent(t, tx, commit.consent, spent, e);
      tx := tx.(consents := tx.consents[commit.consent := spent]);
      db := tx;
      r := Ok;
    }

    method CommitCodeExchange(commit: ExchangeCommit, policy: StatePolicy, now: Time) returns (r: Outcome)
      requires Valid() && now != ZERO_TIME
      modifies this
      ensures Valid() && Performs(old(db), db, r, Spec.Exchange(commit, now, now), policy)
      ensures Writes(old(db), db, Spec.Exchange(commit, now, now))
    {
      hide Writes;
      hide Spec.RegisterClient, Spec.TouchClient, Spec.CreateAuthorization, Spec.CommitLogin;
      hide Spec.CommitConsent, Spec.CommitRefreshRotation;
      ghost var t, e := db, Spec.Exchange(commit, now, now);
      WritesNothing(t, e);
      hide PruneTx, ViewClients, ViewAuthorizations, ViewConsents, ViewCodes, ViewGrants;
      hide BlankAuthorizations, BlankConsents, AuthorizationsSound, ConsentsSound, CodesSound, GrantsSound;
      hide Spec.ActiveGrants, ActiveRows;
      var tx := PruneTx(db, now);
      PruneTxSound(db, now);
      WritesPrune(db, now, e);
      ViewKeys(tx);
      BlankView(tx);
      if commit.code !in tx.codes {
        return Err(NotFound);
      }
      var stored := tx.codes[commit.code];
      var code := DecodeCode(stored);
      ViewOfCode(tx.codes, commit.code);
      var verdict := ValidateCodeExchangeCommit(code, commit, now);
      if verdict.Err? {
        return verdict;
      }
      ActiveRowsCount(tx.refresh);
      if |ActiveRows(tx.refresh)| >= policy.capacity.maxRefreshGrants {
        return Err(Capacity);
      }
      var grant := commit.refresh.value;
      if grant.digest in tx.refresh {
        return Err(Conflict);
      }
      var row := GrantRow(grant.familyID, grant.generation, grant, None, None);
      var spent := stored.(consumedAt := Mark(stored.consumedAt, now));
      PutGrant(tx.refresh, grant.digest, row);
      PutCode(tx.codes, commit.code, spent);
      WritesGrant(t, tx, grant.digest, row, e);
      tx := tx.(refresh := tx.refresh[grant.digest := row]);
      WritesCode(t, tx, commit.code, spent, e);
      tx := tx.(codes := tx.codes[commit.code := spent]);
      db := tx;
      r := Ok;
    }

    method CommitRefreshRotation(rotation: Rotation, policy: StatePolicy, now: Time) returns (r: Outcome)
      requires Valid() && now != ZERO_TIME
      modifies this
      ensures Valid() && Performs(old(db), db, r, Spec.Rotate(rotation, now, now), policy)
      ensures Writes(old(db), db, Spec.Rotate(rotation, now, now))
    {
      hide Writes;
      hide Spec.RegisterClient, Spec.TouchClient, Spec.CreateAuthorization, Spec.CommitLogin;
      hide Spec.CommitConsent, Spec.CommitCodeExchange;
      ghost var t, e := db, Spec.Rotate(rotation, now, now);
      WritesNothing(t, e);
      hide PruneTx, ViewClients, ViewAuthorizations, ViewConsents, ViewCodes, ViewGrants;
      hide BlankAuthorizations, BlankConsents, AuthorizationsSound, ConsentsSound, CodesSound, GrantsSound;
      hide RevokeFamilyRows, Spec.RevokeRows;
      var tx := PruneTx(db, now);
      PruneTxSound(db, now);
      WritesPrune(db, now, e);
      ViewKeys(tx);
      BlankView(tx);
      if rotation.current !in tx.refresh {
        return Err(NotFound);
      }
      var stored := tx.refresh[rotation.current];
      ViewOfGrant(tx.refresh, rotation.current);
      if stored.familyID != rotation.familyID || stored.generation != rotation.generation {
        return Err(Binding);
      }
      RevokeRowsView(tx.refresh, rotation.familyID, now);
      if stored.consumedAt.Some? || stored.revokedAt.Some? {
        WritesRevocation(t, tx, rotation.familyID, now, e);
        tx := tx.(refresh := RevokeFamilyRows(tx.refresh, rotation.familyID, now));
        db := tx;
        return Err(Revoked);
      }
      var current := stored.payload;
      assert current == View(tx).refresh[rotation.current];
      hide ValidateRefreshRotation;
      var verdict := ValidateRefreshRotation(current, rotation, now);
      if verdict.Err? {
        return verdict;
      }
      if rotation.successor.generation >= policy.capacity.maxRefreshGenerations {
        WritesRevocation(t, tx, rotation.familyID, now, e);
        tx := tx.(refresh := RevokeFamilyRows(tx.refresh, rotation.familyID, now));
        db := tx;
        return Err(Revoked);
      }
      var next := rotation.successor;
      if next.digest in tx.refresh {
        return Err(Conflict);
      }
      var row := GrantRow(next.familyID, next.generation, next, None, None);
      var spent := stored.(consumedAt := Mark(stored.consumedAt, now));
      PutRotation(t, tx, rotation.current, spent, row, e);
      tx := tx.(refresh := tx.refresh[next.digest := row]);
      tx := tx.(refresh := tx.refresh[rotation.current := spent]);
      db := tx;
      r := Ok;
    }

    /** A stamp of the zero time is written like any other; the model then promises only what is written. */
    method RevokeRefreshFamily(family: RefreshFamilyID, at: Time, ghost policy: StatePolicy)
      requires Valid()
      modifies this
      ensures db == old(db).(refresh := db.refresh) && db.refresh.Keys == old(db).refresh.Keys
      ensures forall d | d in db.refresh ::
                var row := old(db).refresh[d];
                db.refresh[d]
                == if row.familyID == family && row.revokedAt.None? then row.(revokedAt := Some(at)) else row
      ensures at != ZERO_TIME ==> Valid() && Performs(old(db), db, Ok, Spec.Revoke(family, at), policy)
      ensures Writes(old(db), db, Spec.Revoke(family, at))
    {
      hide Writes;
      ghost var t, e := db, Spec.Revoke(family, at);
      WritesNothing(t, e);
      hide ViewAuthorizations, ViewConsents, ViewCodes, ViewGrants, ViewClients, BlankAuthorizations, BlankConsents;
      hide Spec.RevokeRows;
      BlankView(db);
      if at != ZERO_TIME {
        RevokeRowsView(db.refresh, family, at);
      }
      WritesRevocation(t, db, family, at, e);
      db := db.(refresh := RevokeFamilyRows(db.refresh, family, at));
    }

    method Prune(now: Time, ghost policy: StatePolicy) returns (stats: PruneStats)
      requires Valid()
      modifies this
      ensures Valid() && Performs(old(db), db, Ok, Spec.Sweep(now), policy)
      ensures Writes(old(db), db, Spec.Sweep(now))
      ensures OnlyUnexpired(old(db), db, now)
      ensures stats == PruneStats(|old(db).authorizations| - |db.authorizations|, |old(db).consents| - |db.consents|,
                                  |old(db).codes| - |db.codes|, |old(db).refresh| - |db.refresh|)
    {
      hide View, Blank, Writes, PruneTx, OnlyUnexpired, Sound;
      ghost var t, e := db, Spec.Sweep(now);
      PruneTxRows(db, now);
      PruneTxSound(db, now);
      WritesPrune(db, now, e);
      BlankView(PruneTx(db, now));
      var tx := PruneTx(db, now);
      stats := PruneStats(|db.authorizations| - |tx.authorizations|, |db.consents| - |tx.consents|,
                          |db.codes| - |tx.codes|, |db.refresh| - |tx.refresh|);
      db := tx;
    }
  }
}
