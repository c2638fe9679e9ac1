/**
 Refresh families over whole runs: their shape, replay detection, the finality of
 revocation, provenance, and the bounds on grants and clients.
 */
module FamilySafety {
  import opened Scopes
  import opened Model
  import opened Transitions
  import opened StoreSpec
  import opened StoreRuns
  import opened StoreSafety

  // -------------------------------------------------------------------------
  // Shape
  // -------------------------------------------------------------------------

  /** The rows of a family, oldest first: generations 0, 1, ..., every row but the last spent. */
  ghost predicate IsChain(rows: Grants, family: RefreshFamilyID, chain: seq<CredentialDigest>) {
    && (forall d :: d in chain <==> d in rows && rows[d].familyID == family)
    && (forall i | 0 <= i < |chain| ::
          && rows[chain[i]].generation == i
          && (rows[chain[i]].consumedAt != ZERO_TIME <==> i + 1 < |chain|))
    && (forall i, j | 0 <= i <= j < |chain| ::
          && SameFamily(rows[chain[i]], rows[chain[j]])
          && (rows[chain[i]].revokedAt == ZERO_TIME <==> rows[chain[j]].revokedAt == ZERO_TIME)
          && Elements(rows[chain[j]].scopes) <= Elements(rows[chain[i]].scopes))
  }

  lemma StoredFamilyIsChain(rows: Grants, families: Families, grants: Grants, limit: int, now: Time,
                            root: CredentialDigest)
    requires FamiliesInv(families, grants, limit) && RowsInv(rows, families, grants, now) && root in rows
    ensures rows[root].familyID in families
    ensures var chain := families[rows[root].familyID].chain;
            chain != [] && |chain| <= limit && IsChain(rows, rows[root].familyID, chain)
  {
    var family := rows[root].familyID;
    var chain := families[family].chain;
    forall i | 0 <= i < |chain|
      ensures chain[i] in rows && rows[chain[i]].familyID == family && rows[chain[i]].generation == i
      ensures rows[chain[i]].consumedAt != ZERO_TIME <==> i + 1 < |chain|
      ensures i < limit
    {
      assert chain[i] in grants && grants[chain[i]].familyID == family && root in rows;
    }
    forall d | d in rows && rows[d].familyID == family
      ensures d in chain
    {
      assert d in grants && grants[d].familyID == family;
    }
    assert root in chain && grants[chain[|chain| - 1]].generation < limit;
    ChainRelated(rows, families, grants, family);
  }

  lemma ChainRelated(rows: Grants, families: Families, grants: Grants, family: RefreshFamilyID)
    requires Related(grants) && GrantsKnown(rows, families, grants) && WholeFamilies(rows, grants)
    requires family in families
    requires forall i | 0 <= i < |families[family].chain| ::
               var d := families[family].chain[i];
               d in rows && rows[d].familyID == family && rows[d].generation == i
    ensures var chain := families[family].chain;
            forall i, j | 0 <= i <= j < |chain| ::
              && SameFamily(rows[chain[i]], rows[chain[j]])
              && (rows[chain[i]].revokedAt == ZERO_TIME <==> rows[chain[j]].revokedAt == ZERO_TIME)
              && Elements(rows[chain[j]].scopes) <= Elements(rows[chain[i]].scopes)
  {
    var chain := families[family].chain;
    forall i, j | 0 <= i <= j < |chain|
      ensures SameFamily(rows[chain[i]], rows[chain[j]])
      ensures rows[chain[i]].revokedAt == ZERO_TIME <==> rows[chain[j]].revokedAt == ZERO_TIME
      ensures Elements(rows[chain[j]].scopes) <= Elements(rows[chain[i]].scopes)
    {
      assert chain[i] in rows && chain[j] in grants && grants[chain[j]].familyID == rows[chain[i]].familyID;
    }
  }

  /**
   In every reachable store each family is a chain of at most `MaxRefreshGenerations` rows,
   and no two grants of one family are active.
   */
  lemma FamiliesAreChains(now: Time, es: seq<Event>, policy: StatePolicy)
    requires now > ZERO_TIME && ValidPolicy(policy) && Legal(Start(now), es, policy)
    ensures var rows := Run(Start(now), es, policy).store.refresh;
            && (forall d | d in rows ::
                  exists chain :: chain != [] && |chain| <= policy.capacity.maxRefreshGenerations
                                  && IsChain(rows, rows[d].familyID, chain))
            && (forall d, e | d in rows && e in rows && rows[d].familyID == rows[e].familyID
                              && rows[d].Active() && rows[e].Active() :: d == e)
  {
    hide Enabled, Next, Start, SameFamily;
    var w := Run(Start(now), es, policy);
    ReachableEnd(now, es, policy);
    InvParts(w, policy);
    hide Inv, FamiliesInv, RowsInv;
    var rows := w.store.refresh;
    forall d | d in rows
      ensures var chain := w.past.families[rows[d].familyID].chain;
              chain != [] && |chain| <= policy.capacity.maxRefreshGenerations && IsChain(rows, rows[d].familyID, chain)
    {
      StoredFamilyIsChain(rows, w.past.families, w.past.grants, policy.capacity.maxRefreshGenerations, w.now, d);
    }
    forall d, e | d in rows && e in rows && rows[d].familyID == rows[e].familyID && rows[d].Active() && rows[e].Active()
      ensures d == e
    {
      OneActive(rows, rows[d].familyID, w.past.families[rows[d].familyID].chain, d, e);
    }
  }

  lemma OneActive(rows: Grants, family: RefreshFamilyID, chain: seq<CredentialDigest>,
                  d: CredentialDigest, e: CredentialDigest)
    requires IsChain(rows, family, chain)
    requires d in rows && e in rows && rows[d].familyID == family && rows[e].familyID == family
    requires rows[d].Active() && rows[e].Active()
    ensures d == e
  {
    assert d in chain && e in chain;
  }

  lemma ReachableEnd(now: Time, es: seq<Event>, policy: StatePolicy)
    requires now > ZERO_TIME && ValidPolicy(policy) && Legal(Start(now), es, policy)
    ensures Inv(Run(Start(now), es, policy), policy)
  {
    hide Inv, Enabled, Next, Start;
    StartHolds(now, policy);
    RunKeeps(Start(now), es, policy);
  }

  lemma InvParts(w: World, policy: StatePolicy)
    requires Inv(w, policy)
    ensures w.now > ZERO_TIME && CredentialInv(w.store, w.past)
    ensures FamiliesInv(w.past.families, w.past.grants, policy.capacity.maxRefreshGenerations)
    ensures RowsInv(w.store.refresh, w.past.families, w.past.grants, w.now)
    ensures |ActiveGrants(w.store.refresh)| <= policy.capacity.maxRefreshGrants
    ensures |w.store.clients| <= policy.registration.maxClients
  {
    hide CredentialInv, FamiliesInv, RowsInv;
  }

  // -------------------------------------------------------------------------
  // Replay and revocation
  // -------------------------------------------------------------------------

  /** The family was issued and every row still stored is revoked. */
  ghost predicate Dead(w: World, family: RefreshFamilyID) {
    && family in w.past.families
    && forall d | d in w.store.refresh && w.store.refresh[d].familyID == family ::
         w.store.refresh[d].revokedAt != ZERO_TIME
  }

  /** No rotation of a dead family succeeds, and no exchange opens it again. */
  lemma DeadStays(w: World, e: Event, family: RefreshFamilyID, policy: StatePolicy)
    requires Inv(w, policy) && Enabled(w, e, policy) && Dead(w, family)
    ensures Dead(Next(w, e, policy), family)
  {
    hide Inv, Enabled, Apply, Record;
    NowIsSet(w, policy);
    KnownRows(w, policy);
    StepGrows(w, e, policy);
    StepAdvances(w, e, policy);
    NewRows(w, e, family, policy);
  }

  /** A step stores no new row of a dead family. */
  lemma NewRows(w: World, e: Event, family: RefreshFamilyID, policy: StatePolicy)
    requires Enabled(w, e, policy) && Dead(w, family)
    ensures forall d | d in Next(w, e, policy).store.refresh && d !in w.store.refresh ::
              Next(w, e, policy).store.refresh[d].familyID != family
  {
    hide Record, ExchangeBound, Prune, Evict, ActiveGrants, RevokeRows;
    hide CreateAuthorization, CommitLogin, CommitConsent, CommitCodeExchange, CommitRefreshRotation;
    if e.Register? || e.Touch? {
      RegisterKeepsGrants(w.store, e, policy);
    } else {
      if !e.Revoke? {
        PruneKeepsRowsOf(w.store, e.pruneAt);
      }
      if Apply(w.store, e, policy).1.Err? {
        RefusalChangesNothingLive(w.store, e, policy);
        if e.Rotate? {
          RevokeKeepsKeys(Prune(w.store, e.pruneAt), e.rotation.familyID, e.now);
        }
      } else {
        match e
        case Create(auth, t) => CreateKeepsGrants(Prune(w.store, t), auth, policy);
        case Login(commit, t, now) => LoginAccepted(Prune(w.store, t), commit, policy, now);
        case Decide(commit, t, now) => ConsentAccepted(Prune(w.store, t), commit, policy, now);
        case Exchange(commit, t, now) => ExchangeAccepted(Prune(w.store, t), commit, policy, now);
        case Rotate(rotation, t, now) => RotationAccepted(Prune(w.store, t), rotation, policy, now);
        case Revoke(f, at) => RevokeKeepsKeys(w.store, f, at);
        case Sweep(_) =>
      }
    }
  }

  lemma CreateKeepsGrants(p: State, auth: Authorization, policy: StatePolicy)
    ensures CreateAuthorization(p, auth, policy).0.refresh == p.refresh
  {
  }

  lemma RevokeKeepsKeys(s: State, family: RefreshFamilyID, at: Time)
    ensures RevokeFamily(s, family, at).refresh.Keys == s.refresh.Keys
  {
  }

  lemma {:induction false} DeadThroughRun(w: World, es: seq<Event>, family: RefreshFamilyID, policy: StatePolicy)
    requires Inv(w, policy) && ValidPolicy(policy) && Legal(w, es, policy) && Dead(w, family)
    ensures Dead(Run(w, es, policy), family)
    decreases |es|
  {
    hide Inv, Enabled, Next, Dead;
    if es != [] {
      DeadStays(w, es[0], family, policy);
      StepKeeps(w, es[0], policy);
      DeadThroughRun(Next(w, es[0], policy), es[1..], family, policy);
    }
  }

  /** After a family is revoked no later state of the run holds an active grant of it. */
  lemma RevocationIsFinal(now: Time, es: seq<Event>, i: nat, j: nat, policy: StatePolicy)
    requires now > ZERO_TIME && ValidPolicy(policy) && Legal(Start(now), es, policy)
    requires i < j <= |es| && es[i].Revoke? && es[i].family in Before(Start(now), es, i, policy).past.families
    ensures Dead(Before(Start(now), es, j, policy), es[i].family)
    ensures forall d | d in Before(Start(now), es, j, policy).store.refresh ::
              Before(Start(now), es, j, policy).store.refresh[d].familyID == es[i].family ==>
                !Before(Start(now), es, j, policy).store.refresh[d].Active()
  {
    hide Inv, Enabled, Next, Start;
    RunStep(Start(now), es, i, policy);
    RevokeKills(Before(Start(now), es, i, policy), es[i], policy);
    Reachable(now, es, i + 1, policy);
    RunBetween(Start(now), es, i + 1, j, policy);
    DeadThroughRun(Before(Start(now), es, i + 1, policy), es[i + 1..j], es[i].family, policy);
  }

  lemma RevokeKills(w: World, e: Event, policy: StatePolicy)
    requires e.Revoke? && e.family in w.past.families && Enabled(w, e, policy)
    ensures Dead(Next(w, e, policy), e.family)
  {
  }

  /**
   Replay detection is complete: a token that was rotated stays stored and marked consumed
   until its family expires, and presenting it again then ends with the family dead.
   */
  lemma ReplayRevokes(w: World, rotation: Rotation, pruneAt: Time, now: Time, policy: StatePolicy)
    requires Spent(w, RefreshToken(rotation.current)) && w.now <= pruneAt <= now
    requires rotation.familyID == w.past.grants[rotation.current].familyID
    requires rotation.generation == w.past.grants[rotation.current].generation
    requires w.past.grants[rotation.current].expiresAt > pruneAt
    requires Inv(w, policy)
    ensures rotation.current in w.store.refresh && w.store.refresh[rotation.current].consumedAt != ZERO_TIME
    ensures Apply(w.store, Rotate(rotation, pruneAt, now), policy).1 == Err(Revoked)
    ensures Dead(Next(w, Rotate(rotation, pruneAt, now), policy), rotation.familyID)
  {
    hide Inv, Prune, RevokeFamily, CommitRefreshRotation, Record;
    NowIsSet(w, policy);
    ReplayedRow(w, rotation.current, pruneAt, policy);
    InactiveIsRevoked(Prune(w.store, pruneAt), rotation, policy, now);
    RevokedRows(Prune(w.store, pruneAt), rotation.familyID, now);
  }

  /** A spent token is still stored, marked consumed, after any prune before its family expires. */
  lemma ReplayedRow(w: World, d: CredentialDigest, t: Time, policy: StatePolicy)
    requires Spent(w, RefreshToken(d)) && w.past.grants[d].expiresAt > t && w.now <= t
    requires Inv(w, policy)
    ensures d in w.store.refresh && w.store.refresh[d].consumedAt != ZERO_TIME
    ensures d in Prune(w.store, t).refresh && Prune(w.store, t).refresh[d] == w.store.refresh[d]
    ensures w.store.refresh[d].familyID == w.past.grants[d].familyID
    ensures w.store.refresh[d].generation == w.past.grants[d].generation
    ensures w.past.grants[d].familyID in w.past.families
  {
    hide Inv, Prune, FamiliesInv, RowsInv;
    InvParts(w, policy);
    PruneKeeps(w, t, policy);
    var p := World(Prune(w.store, t), w.past, t);
    InvParts(p, policy);
    StoredUntilExpiry(w.store.refresh, w.past, w.now, policy, d);
    StoredUntilExpiry(p.store.refresh, w.past, t, policy, d);
    PruneKeepsRowsOf(w.store, t);
  }

  lemma InactiveIsRevoked(p: State, rotation: Rotation, policy: StatePolicy, now: Time)
    requires rotation.current in p.refresh && !p.refresh[rotation.current].Active()
    requires p.refresh[rotation.current].familyID == rotation.familyID
    requires p.refresh[rotation.current].generation == rotation.generation
    ensures CommitRefreshRotation(p, rotation, policy, now) == (RevokeFamily(p, rotation.familyID, now), Err(Revoked))
  {
  }

  lemma StoredUntilExpiry(rows: Grants, past: Past, now: Time, policy: StatePolicy, d: CredentialDigest)
    requires FamiliesInv(past.families, past.grants, policy.capacity.maxRefreshGenerations)
    requires RowsInv(rows, past.families, past.grants, now)
    requires d in past.grants && past.grants[d].expiresAt > now
    ensures d in rows && rows[d].familyID == past.grants[d].familyID && rows[d].generation == past.grants[d].generation
    ensures rows[d].familyID in past.families
  {
  }

  lemma RevokedRows(s: State, family: RefreshFamilyID, at: Time)
    requires at != ZERO_TIME
    ensures forall d | d in RevokeFamily(s, family, at).refresh ::
              RevokeFamily(s, family, at).refresh[d].familyID == family
              ==> RevokeFamily(s, family, at).refresh[d].revokedAt != ZERO_TIME
  {
  }

  /**
   Two rotations of one token, however they interleave with other calls: the second one to
   commit is refused, and unless the family has expired it leaves the family dead.
   */
  lemma SecondRotationRevokes(now: Time, es: seq<Event>, i: nat, j: nat, policy: StatePolicy)
    requires now > ZERO_TIME && ValidPolicy(policy) && Legal(Start(now), es, policy)
    requires i < j < |es| && es[i].Rotate? && es[j].Rotate? && Succeeds(Start(now), es, i, policy)
    requires es[i].rotation.current == es[j].rotation.current
    requires es[i].rotation.familyID == es[j].rotation.familyID
    requires es[i].rotation.generation == es[j].rotation.generation
    ensures !Succeeds(Start(now), es, j, policy)
    ensures es[i].rotation.successor.expiresAt > es[j].pruneAt ==>
              Dead(Before(Start(now), es, j + 1, policy), es[j].rotation.familyID)
  {
    hide Inv, Enabled, Next, Start, Apply, Dead, Spent;
    CredentialSpentOnce(now, es, i, j, policy);
    var b, c := Before(Start(now), es, i, policy), Before(Start(now), es, j, policy);
    Reachable(now, es, i, policy);
    Reachable(now, es, i + 1, policy);
    Reachable(now, es, j, policy);
    RunStep(Start(now), es, i, policy);
    RunStep(Start(now), es, j, policy);
    RotatedRecord(b, es[i], policy);
    GrantKept(b, es[i], es[i].rotation.current, policy);
    SuccessSpends(b, es[i], policy);
    RunBetween(Start(now), es, i + 1, j, policy);
    SpentThroughRun(Before(Start(now), es, i + 1, policy), es[i + 1..j], RefreshToken(es[i].rotation.current), policy);
    GrantsKept(Before(Start(now), es, i + 1, policy), es[i + 1..j], es[i].rotation.current, policy);
    CommitTimes(c, es[j], policy);
    if es[i].rotation.successor.expiresAt > es[j].pruneAt {
      SpentIsRecorded(c, es[j].rotation.current);
      ReplayRevokes(c, es[j].rotation, es[j].pruneAt, es[j].now, policy);
    }
  }

  lemma SpentIsRecorded(w: World, d: CredentialDigest)
    requires Spent(w, RefreshToken(d))
    ensures d in w.past.grants
  {
  }

  lemma RotatedRow(s: State, e: Event, policy: StatePolicy)
    requires e.Rotate? && Apply(s, e, policy).1.Ok?
    ensures e.rotation.current in s.refresh
    ensures var g := s.refresh[e.rotation.current];
            && g.Active() && g.familyID == e.rotation.familyID && g.generation == e.rotation.generation
            && g.expiresAt == e.rotation.successor.expiresAt
  {
    hide Prune, CommitRefreshRotation;
    PruneKeepsRowsOf(s, e.pruneAt);
    RotationAccepted(Prune(s, e.pruneAt), e.rotation, policy, e.now);
  }

  /** What the record says about a token that is rotated. */
  lemma RotatedRecord(w: World, e: Event, policy: StatePolicy)
    requires Inv(w, policy) && e.Rotate? && Apply(w.store, e, policy).1.Ok?
    ensures e.rotation.current in w.past.grants
    ensures var g := w.past.grants[e.rotation.current];
            && g.familyID == e.rotation.familyID && g.generation == e.rotation.generation
            && g.expiresAt == e.rotation.successor.expiresAt
  {
    hide Inv, FamiliesInv, RowsInv, Apply;
    InvParts(w, policy);
    RotatedRow(w.store, e, policy);
    ActiveIsLast(w.store.refresh, w.past.families, w.past.grants, policy.capacity.maxRefreshGenerations, w.now,
                 e.rotation.current);
  }

  /** The record of a grant never changes. */
  lemma {:induction false} GrantsKept(w: World, es: seq<Event>, d: CredentialDigest, policy: StatePolicy)
    requires Inv(w, policy) && ValidPolicy(policy) && Legal(w, es, policy) && d in w.past.grants
    ensures d in Run(w, es, policy).past.grants && Run(w, es, policy).past.grants[d] == w.past.grants[d]
    decreases |es|
  {
    hide Inv, Enabled, Next;
    if es != [] {
      GrantKept(w, es[0], d, policy);
      StepKeeps(w, es[0], policy);
      GrantsKept(Next(w, es[0], policy), es[1..], d, policy);
    }
  }

  lemma GrantKept(w: World, e: Event, d: CredentialDigest, policy: StatePolicy)
    requires Enabled(w, e, policy) && d in w.past.grants
    ensures d in Next(w, e, policy).past.grants && Next(w, e, policy).past.grants[d] == w.past.grants[d]
  {
    hide Apply;
  }

  // -------------------------------------------------------------------------
  // Provenance
  // -------------------------------------------------------------------------

  /** The transaction, consent and code behind a grant, and what they share with it. */
  ghost predicate Traced(past: Past, g: Grant) {
    && g.familyID in past.families
    && past.families[g.familyID].code in past.codes
    && var k := past.codes[past.families[g.familyID].code];
    && k.consent in past.consents
    && var c := past.consents[k.consent];
    && c.transaction in past.auths
    && var a := past.auths[c.transaction];
    && g.clientID == k.record.clientID == c.session.client.id == a.clientID
    && k.record.redirectURI == c.session.client.redirectURI == a.redirectURI
    && k.record.challenge == c.session.challenge == a.challenge
    && g.resource == k.record.resource == c.session.resource == a.resource
    && g.principal.subject == k.record.principal.subject == c.session.principal.subject != ""
    && Elements(g.scopes) <= Elements(k.record.scopes)
       <= Elements(c.session.allowedScopes) <= Elements(a.requestedScopes)
    && g.expiresAt == k.record.authorizationEnds == c.session.authorizationEnds
  }

  lemma RecordIsTraced(w: World, d: CredentialDigest, policy: StatePolicy)
    requires Inv(w, policy) && d in w.past.grants
    ensures Traced(w.past, w.past.grants[d])
  {
    hide Inv;
    InvParts(w, policy);
    hide RowsInv, AuthsKnown, ConsentsKnown, CodesKnown;
    var g := w.past.grants[d];
    var root := w.past.grants[w.past.families[g.familyID].chain[0]];
    assert SameFamily(g, root) && Elements(g.scopes) <= Elements(root.scopes);
    hide Chained, Related;
    var k := w.past.codes[w.past.families[g.familyID].code];
    assert ExchangeBound(k.record, root);
    assert ConsentBound(w.past.consents[k.consent].session, k.record);
  }

  /**
   In every reachable store each grant traces to one transaction, through one code and one
   consent; and a transaction, a consent and a code each lead to at most one family.
   */
  lemma GrantsAreTraced(now: Time, es: seq<Event>, policy: StatePolicy)
    requires now > ZERO_TIME && ValidPolicy(policy) && Legal(Start(now), es, policy)
    ensures var w := Run(Start(now), es, policy);
            && (forall d | d in w.store.refresh :: Traced(w.past, w.store.refresh[d]))
            && (forall f, g | f in w.past.families && g in w.past.families
                    && OriginOf(w.past, f) == OriginOf(w.past, g) != None :: f == g)
  {
    hide Inv, Enabled, Next, Start, Traced;
    var w := Run(Start(now), es, policy);
    ReachableEnd(now, es, policy);
    forall d | d in w.store.refresh
      ensures Traced(w.past, w.store.refresh[d])
    {
      KnownRows(w, policy);
      RecordIsTraced(w, d, policy);
      RowIsRecord(w, d, policy);
    }
    OriginsAreDistinct(w, policy);
  }

  ghost function OriginOf(past: Past, f: RefreshFamilyID): Option<CredentialDigest>
    requires f in past.families
  {
    var code := past.families[f].code;
    if code in past.codes && past.codes[code].consent in past.consents
    then Some(past.consents[past.codes[code].consent].transaction)
    else None
  }

  lemma OriginsAreDistinct(w: World, policy: StatePolicy)
    requires Inv(w, policy)
    ensures forall f, g | f in w.past.families && g in w.past.families
                          && OriginOf(w.past, f) == OriginOf(w.past, g) != None :: f == g
  {
    hide FamiliesInv, RowsInv, AuthsKnown, ConsentsKnown, CodesKnown, LoginBound, ConsentBound, ExchangeBound;
  }

  lemma RowIsRecord(w: World, d: CredentialDigest, policy: StatePolicy)
    requires Inv(w, policy) && d in w.store.refresh && d in w.past.grants
    requires Traced(w.past, w.past.grants[d])
    ensures Traced(w.past, w.store.refresh[d])
  {
    hide FamiliesInv, CredentialInv, WholeFamilies, Retained;
    assert w.store.refresh[d].(consumedAt := ZERO_TIME, revokedAt := ZERO_TIME) == w.past.grants[d];
  }

  // -------------------------------------------------------------------------
  // Bounds and references
  // -------------------------------------------------------------------------

  /**
   Active grants are conserved by rotation, added only by an exchange and never more than
   `MaxRefreshGrants`; a generation never wraps around.
   */
  lemma ActiveGrantsConserved(w: World, e: Event, policy: StatePolicy)
    requires Inv(w, policy) && ValidPolicy(policy) && Enabled(w, e, policy)
    ensures |ActiveGrants(Next(w, e, policy).store.refresh)| <= policy.capacity.maxRefreshGrants
    ensures e.Rotate? && Apply(w.store, e, policy).1.Ok? ==>
              && |ActiveGrants(Next(w, e, policy).store.refresh)| == |ActiveGrants(Prune(w.store, e.pruneAt).refresh)|
              && e.rotation.successor.generation == e.rotation.generation + 1
    ensures !(e.Exchange? && Apply(w.store, e, policy).1.Ok?) ==>
              |ActiveGrants(Next(w, e, policy).store.refresh)| <= |ActiveGrants(w.store.refresh)|
    ensures e.Exchange? && Apply(w.store, e, policy).1.Ok? ==>
              |ActiveGrants(Next(w, e, policy).store.refresh)| == |ActiveGrants(Prune(w.store, e.pruneAt).refresh)| + 1
  {
    StepKeeps(w, e, policy);
    hide Inv, Enabled, ActiveGrants, Apply;
    InvParts(Next(w, e, policy), policy);
    assert Next(w, e, policy).store == Apply(w.store, e, policy).0;
    ActiveGrantsChange(w, e, policy);
  }

  lemma ActiveGrantsChange(w: World, e: Event, policy: StatePolicy)
    requires Inv(w, policy) && Enabled(w, e, policy)
    ensures var after := Apply(w.store, e, policy).0;
            && (e.Rotate? && Apply(w.store, e, policy).1.Ok? ==>
                  && |ActiveGrants(after.refresh)| == |ActiveGrants(Prune(w.store, e.pruneAt).refresh)|
                  && e.rotation.successor.generation == e.rotation.generation + 1)
            && (!(e.Exchange? && Apply(w.store, e, policy).1.Ok?) ==>
                  |ActiveGrants(after.refresh)| <= |ActiveGrants(w.store.refresh)|)
            && (e.Exchange? && Apply(w.store, e, policy).1.Ok? ==>
                  |ActiveGrants(after.refresh)| == |ActiveGrants(Prune(w.store, e.pruneAt).refresh)| + 1)
  {
    hide Inv, Prune, Evict, RevokeRows, ActiveGrants, ExchangeBound, SameFamily;
    hide CreateAuthorization, CommitLogin, CommitConsent, CommitCodeExchange, CommitRefreshRotation;
    if e.Register? || e.Touch? {
      RegisterKeepsGrants(w.store, e, policy);
    } else if e.Revoke? {
      RevokedIsInactive(w.store.refresh, e.family, e.at);
    } else {
      var p := Prune(w.store, e.pruneAt);
      PruneShrinksActive(w.store, e.pruneAt);
      if Apply(w.store, e, policy).1.Err? {
        RefusalChangesNothingLive(w.store, e, policy);
        if e.Rotate? {
          NowIsSet(w, policy);
          RevokedIsInactive(p.refresh, e.rotation.familyID, e.now);
        }
      } else {
        match e
        case Create(auth, t) => CreateKeepsGrants(p, auth, policy);
        case Login(commit, t, now) => LoginAccepted(p, commit, policy, now);
        case Decide(commit, t, now) => ConsentAccepted(p, commit, policy, now);
        case Exchange(commit, t, now) => ExchangeAdds(p, commit, policy, now);
        case Rotate(rotation, t, now) =>
          PrunedKeeps(w, t, now, policy);
          RotationConserves(Pruned(w, t, now), rotation, policy);
        case Sweep(_) =>
      }
    }
  }

  lemma RotationConserves(w: World, rotation: Rotation, policy: StatePolicy)
    requires Inv(w, policy) && CommitRefreshRotation(w.store, rotation, policy, w.now).1.Ok?
    ensures |ActiveGrants(CommitRefreshRotation(w.store, rotation, policy, w.now).0.refresh)|
            == |ActiveGrants(w.store.refresh)|
    ensures rotation.successor.generation == rotation.generation + 1
  {
    hide Inv, ActiveGrants, FamiliesInv, RowsInv, CommitRefreshRotation, SameFamily, IsSubsetOf, CredentialInv;
    InvParts(w, policy);
    RotationAccepted(w.store, rotation, policy, w.now);
    RotateKeepsActive(w.store.refresh, rotation.current, rotation.successor, w.now);
    ActiveIsLast(w.store.refresh, w.past.families, w.past.grants, policy.capacity.maxRefreshGenerations, w.now,
                 rotation.current);
  }

  lemma ExchangeAdds(p: State, commit: ExchangeCommit, policy: StatePolicy, now: Time)
    requires CommitCodeExchange(p, commit, policy, now).1.Ok?
    ensures |ActiveGrants(CommitCodeExchange(p, commit, policy, now).0.refresh)| == |ActiveGrants(p.refresh)| + 1
  {
    ExchangeAccepted(p, commit, policy, now);
    var g := commit.refresh.value;
    assert ActiveGrants(p.refresh[g.digest := g]) == ActiveGrants(p.refresh) + {g.digest};
  }

  lemma PruneShrinksActive(s: State, t: Time)
    ensures |ActiveGrants(Prune(s, t).refresh)| <= |ActiveGrants(s.refresh)|
  {
    SubsetCount(ActiveGrants(Prune(s, t).refresh), ActiveGrants(s.refresh));
  }

  lemma RegisterKeepsGrants(s: State, e: Event, policy: StatePolicy)
    requires e.Register? || e.Touch?
    ensures Apply(s, e, policy).0.refresh == s.refresh
  {
  }
}
