/**
 The records of the authorization server (`pkg/oauthserver/model.go`, `ports.go`, `errors.go`).

 An instant is a number of nanoseconds since Go's zero time, so `IsZero` is a comparison
 with 0. A credential digest is an ideal hash: injective on the raw text and never all zero.
 */
module Model {
  import opened Scopes

  type Time = int
  type Duration = int
  const ZERO_TIME: Time := 0

  const UINT64_SIZE: int := 0x1_0000_0000_0000_0000
  type uint64 = n: int | 0 <= n < UINT64_SIZE

  /** `uint64` addition of one, which wraps. */
  function Increment(n: uint64): uint64 {
    (n + 1) % UINT64_SIZE
  }

  type ClientID = string
  type Subject = string
  type ResourceID = string
  type RedirectURI = string
  type RefreshFamilyID = string
  /** Stands for the application's own principal attributes; only ever compared for equality. */
  type Attributes = string

  datatype CredentialDigest = ZeroDigest | DigestOf(raw: string)

  function DigestCredential(raw: string): CredentialDigest {
    DigestOf(raw)
  }

  datatype PKCEChallenge = PKCEChallenge(value: string, challengeMethod: string)

  datatype Principal = Principal(
    subject: Subject,
    displayName: string,
    email: string,
    authorizationVersion: int,
    attributes: Attributes)

  datatype Resource = Resource(id: ResourceID, displayName: string, supportedScopes: ScopeSet)

  datatype ClientTrust = Unverified | Configured

  datatype Client = Client(
    id: ClientID,
    displayName: string,
    trust: ClientTrust,
    redirectURIs: seq<RedirectURI>,
    allowedScopes: ScopeSet,
    createdAt: Time,
    lastUsedAt: Time)

  datatype ClientSnapshot = ClientSnapshot(
    id: ClientID,
    displayName: string,
    trust: ClientTrust,
    redirectURI: RedirectURI)

  datatype Authorization = Authorization(
    token: string,
    clientID: ClientID,
    redirectURI: RedirectURI,
    state: string,
    challenge: PKCEChallenge,
    requestedScopes: ScopeSet,
    resource: ResourceID,
    expiresAt: Time,
    consumedAt: Time)

  datatype Consent = Consent(
    token: string,
    client: ClientSnapshot,
    state: string,
    challenge: PKCEChallenge,
    principal: Principal,
    allowedScopes: ScopeSet,
    resource: ResourceID,
    authorizationEnds: Time,
    expiresAt: Time,
    consumedAt: Time)

  datatype Code = Code(
    digest: CredentialDigest,
    clientID: ClientID,
    redirectURI: RedirectURI,
    challenge: PKCEChallenge,
    principal: Principal,
    scopes: ScopeSet,
    resource: ResourceID,
    state: string,
    authorizationEnds: Time,
    expiresAt: Time,
    consumedAt: Time)

  datatype Grant = Grant(
    digest: CredentialDigest,
    familyID: RefreshFamilyID,
    generation: uint64,
    clientID: ClientID,
    principal: Principal,
    scopes: ScopeSet,
    resource: ResourceID,
    expiresAt: Time,
    consumedAt: Time,
    revokedAt: Time)
  {
    /** Neither spent nor revoked. */
    predicate Active() {
      consumedAt == ZERO_TIME && revokedAt == ZERO_TIME
    }
  }

  datatype Decision = Undecided | Approve | Deny

  datatype LoginCommit = LoginCommit(transaction: CredentialDigest, consent: Consent)
  datatype ConsentCommit = ConsentCommit(consent: CredentialDigest, code: Code, decision: Decision)
  datatype ExchangeCommit = ExchangeCommit(code: CredentialDigest, refresh: Option<Grant>)
  datatype Rotation = Rotation(
    current: CredentialDigest,
    familyID: RefreshFamilyID,
    generation: uint64,
    successor: Grant)

  datatype RegistrationPolicy = RegistrationPolicy(
    maxClients: int,
    maxRedirectURIs: int,
    maxDisplayName: int,
    maxScopeCount: int,
    maxRedirectBytes: int,
    unverifiedClientTTL: Duration)

  datatype StateCapacity = StateCapacity(
    maxAuthorizations: int,
    maxConsents: int,
    maxCodes: int,
    maxRefreshGrants: int,
    maxRefreshGenerations: uint64)

  datatype StatePolicy = StatePolicy(registration: RegistrationPolicy, capacity: StateCapacity)

  /** The bounds that the store's invariants need; an accepted configuration has them. */
  predicate ValidPolicy(policy: StatePolicy) {
    && policy.capacity.maxRefreshGrants > 0
    && policy.capacity.maxRefreshGenerations > 0
    && policy.registration.maxClients > 0
  }

  /** `Fault` stands for every store error outside the program's own list, such as failed I/O. */
  datatype StoreError =
    | NotFound | Consumed | Expired | Revoked | Conflict | Capacity | Binding | Invalid | Fault

  datatype Outcome = Ok | Err(error: StoreError)

  datatype PruneStats = PruneStats(authorizations: int, consents: int, codes: int, refreshGrants: int)
}
