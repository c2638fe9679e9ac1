/**
 What each answer of the store means: every refusal has its one reason, stated on the state
 that the prune has left, in terms of what the records are bound to.
 */
module StoreAnswers {
  import opened Scopes
  import opened Model
  import opened Transitions
  import opened StoreSpec
  import opened StoreRuns

  /** The record is stored and can still be spent. */
  predicate Spendable(consumedAt: Time, expiresAt: Time, now: Time) {
    consumedAt == ZERO_TIME && now < expiresAt
  }

  /** A full table is told before a key in use, and neither changes anything. */
  lemma RegisterAnswers(s: State, client: Client, policy: StatePolicy, now: Time)
    ensures var e := Register(client, now);
            var (after, r) := Apply(s, e, policy);
            var kept := Evict(s, policy.registration, now);
            && (r == Err(Capacity) <==> |kept.clients| >= policy.registration.maxClients)
            && (r == Err(Conflict) <==> |kept.clients| < policy.registration.maxClients && client.id in kept.clients)
            && (r == Ok <==> |kept.clients| < policy.registration.maxClients && client.id !in kept.clients)
            && after.clients == (if r == Ok then kept.clients[client.id := client] else kept.clients)
            && after == s.(clients := after.clients)
            && forall id | id in s.clients && s.clients[id].trust == Configured :: id in kept.clients
  {
    hide HasLiveState;
  }

  lemma CreateAnswers(p: State, auth: Authorization, policy: StatePolicy)
    ensures var (after, r) := CreateAuthorization(p, auth, policy);
            var k, limit := DigestCredential(auth.token), policy.capacity.maxAuthorizations;
            && (r == Err(Capacity) <==> |p.authorizations| >= limit)
            && (r == Err(Conflict) <==> |p.authorizations| < limit && k in p.authorizations)
            && (r == Ok <==> |p.authorizations| < limit && k !in p.authorizations)
            && after == (if r == Ok then p.(authorizations := p.authorizations[k := auth]) else p)
  {
  }

  lemma LoginAnswers(p: State, commit: LoginCommit, policy: StatePolicy, now: Time)
    ensures var r, tx := CommitLogin(p, commit, policy, now).1, commit.transaction;
            if tx !in p.authorizations then r == Err(NotFound)
            else
              var a, c := p.authorizations[tx], commit.consent;
              && (r == Err(Consumed) <==> a.consumedAt != ZERO_TIME)
              && (r == Err(Expired) <==> a.consumedAt == ZERO_TIME && a.expiresAt <= now)
              && (r in {Err(Binding), Err(Invalid)} <==>
                    Spendable(a.consumedAt, a.expiresAt, now)
                    && !(LoginBound(a, c) && now < c.authorizationEnds && now < c.expiresAt))
              && (r == Err(Invalid) ==>
                    c.principal.subject == "" || !(Elements(c.allowedScopes) <= Elements(a.requestedScopes))
                    || c.authorizationEnds <= now || c.expiresAt <= now)
              && (r == Err(Binding) ==>
                    c.client.id != a.clientID || c.client.redirectURI != a.redirectURI || c.state != a.state
                    || c.challenge != a.challenge || c.resource != a.resource)
              && (ValidateLoginCommit(a, c, now) == Ok ==>
                    r == if |p.consents| >= policy.capacity.maxConsents then Err(Capacity)
                         else if DigestCredential(c.token) in p.consents then Err(Conflict) else Ok)
  {
    if commit.transaction in p.authorizations {
      LoginVerdict(p.authorizations[commit.transaction], commit.consent, now);
    }
  }

  lemma DecisionAnswers(p: State, commit: ConsentCommit, policy: StatePolicy, now: Time)
    ensures var r := CommitConsent(p, commit, policy, now).1;
            if commit.consent !in p.consents then r == Err(NotFound)
            else
              var c, k := p.consents[commit.consent], commit.code;
              && (r == Err(Consumed) <==> c.consumedAt != ZERO_TIME)
              && (r == Err(Expired) <==> c.consumedAt == ZERO_TIME && c.expiresAt <= now)
              && (r == Err(Invalid) <==>
                    Spendable(c.consumedAt, c.expiresAt, now)
                    && (commit.decision == Undecided || (commit.decision == Deny && k.digest != ZeroDigest)))
              && (r == Err(Binding) <==>
                    Spendable(c.consumedAt, c.expiresAt, now) && commit.decision == Approve
                    && !(k.digest != ZeroDigest && ConsentBound(c, k) && now < k.expiresAt))
              && (ValidateConsentCommit(c, commit, now) == Ok && commit.decision == Approve ==>
                    r == if |p.codes| >= policy.capacity.maxCodes then Err(Capacity)
                         else if k.digest in p.codes then Err(Conflict) else Ok)
              && (ValidateConsentCommit(c, commit, now) == Ok && commit.decision != Approve ==> r == Ok)
  {
    hide IsSubsetOf;
    if commit.consent in p.consents {
      ConsentVerdict(p.consents[commit.consent], commit, now);
    }
  }

  lemma ExchangeAnswers(p: State, commit: ExchangeCommit, policy: StatePolicy, now: Time)
    ensures var r := CommitCodeExchange(p, commit, policy, now).1;
            if commit.code !in p.codes then r == Err(NotFound)
            else
              var k := p.codes[commit.code];
              && (r == Err(Consumed) <==> k.consumedAt != ZERO_TIME)
              && (r == Err(Expired) <==> k.consumedAt == ZERO_TIME && k.expiresAt <= now)
              && (r == Err(Invalid) <==> Spendable(k.consumedAt, k.expiresAt, now) && commit.refresh.None?)
              && (r == Err(Binding) <==>
                    Spendable(k.consumedAt, k.expiresAt, now) && commit.refresh.Some?
                    && var g := commit.refresh.value;
                    !(g.digest != ZeroDigest && g.familyID != "" && ExchangeBound(k, g) && g.Active()
                      && now < g.expiresAt))
              && (ValidateCodeExchangeCommit(k, commit, now) == Ok ==>
                    r == if |ActiveGrants(p.refresh)| >= policy.capacity.maxRefreshGrants then Err(Capacity)
                         else if commit.refresh.value.digest in p.refresh then Err(Conflict) else Ok)
  {
    hide Text, ActiveGrants;
    if commit.code in p.codes {
      ExchangeVerdict(p.codes[commit.code], commit, now);
    }
  }

  /** A rotation that is answered revoked leaves the family revoked, and any other refusal leaves all as it was. */
  lemma RotationAnswers(p: State, rotation: Rotation, policy: StatePolicy, now: Time)
    ensures var (after, r) := CommitRefreshRotation(p, rotation, policy, now);
            && (if rotation.current !in p.refresh then r == Err(NotFound)
                else
                  var g, next := p.refresh[rotation.current], rotation.successor;
                  var named := g.familyID == rotation.familyID && g.generation == rotation.generation;
                  && (r == Err(Revoked) <==>
                        named && (!g.Active() || (ValidateRefreshRotation(g, rotation, now) == Ok
                                                  && next.generation >= policy.capacity.maxRefreshGenerations)))
                  && (r == Err(Expired) <==> named && g.Active() && g.expiresAt <= now)
                  && (r == Err(Binding) <==>
                        || !named
                        || (g.Active() && now < g.expiresAt && ValidateRefreshRotation(g, rotation, now) != Ok))
                  && (r in {Ok, Err(Conflict)} <==>
                        && named && g.Active() && ValidateRefreshRotation(g, rotation, now) == Ok
                        && next.generation < policy.capacity.maxRefreshGenerations)
                  && (r == Err(Conflict) ==> next.digest in p.refresh) && (r == Ok ==> next.digest !in p.refresh))
            && (r.Err? ==> after == if r == Err(Revoked) then RevokeFamily(p, rotation.familyID, now) else p)
  {
    hide IsSubsetOf, RevokeFamily;
  }

  /** A family keeps the stamp of its first revocation, and the others keep theirs. */
  lemma RevokedOnce(s: State, f: RefreshFamilyID, g: RefreshFamilyID, at: Time, later: Time)
    requires at != ZERO_TIME && later != ZERO_TIME
    ensures RevokeFamily(RevokeFamily(s, f, at), f, later) == RevokeFamily(s, f, at)
    ensures f != g ==> RevokeFamily(RevokeFamily(s, f, at), g, later) == RevokeFamily(RevokeFamily(s, g, later), f, at)
  {
    hide RevokeRows;
    RowsRevokedOnce(s.refresh, f, at, later);
    if f != g {
      RowsRevokedApart(s.refresh, f, g, at, later);
    }
  }

  lemma RowsRevokedOnce(rows: Grants, f: RefreshFamilyID, at: Time, later: Time)
    requires at != ZERO_TIME
    ensures RevokeRows(RevokeRows(rows, f, at), f, later) == RevokeRows(rows, f, at)
  {
  }

  lemma RowsRevokedApart(rows: Grants, f: RefreshFamilyID, g: RefreshFamilyID, at: Time, later: Time)
    requires f != g
    ensures RevokeRows(RevokeRows(rows, f, at), g, later) == RevokeRows(RevokeRows(rows, g, later), f, at)
  {
  }
}
