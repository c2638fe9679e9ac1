/**
 Clients over every run of the server: live records name registered clients exactly as long
 as every creation still finds the client that its call touched, and when it is bound to.
 */
module EngineClients {
  import opened Scopes
  import opened Model
  import opened StoreSpec
  import opened StoreRuns
  import opened StoreSafety
  import opened References
  import opened Plans
  import opened Books
  import opened EngineRuns
  import opened EngineSafety
  import Engine

  /** A commit that creates a live transaction finds its client still stored. */
  ghost predicate FindsItsClient(d: Deployment, e: Server, step: Step) {
    Committing(e, step) && !step.fault
    ==> FindsClient(e.w, CallOf(e.pending[step.i].plan, step.pruneAt, step.now), d.config.statePolicy)
  }

  lemma OtherCallsFind(w: World, call: Event, policy: StatePolicy)
    requires !call.Create?
    ensures FindsClient(w, call, policy)
  {
  }

  lemma CallFinds(d: Deployment, e: Server, step: Step)
    ensures FindsItsClient(d, e, step)
            <==> (Calls(d, e, step) != [] ==> FindsClient(e.w, Calls(d, e, step)[0], d.config.statePolicy))
  {
    hide FindsClient, Engine.MetadataAccepted, CallOf;
    if Calls(d, e, step) != [] && !Calls(d, e, step)[0].Create? {
      OtherCallsFind(e.w, Calls(d, e, step)[0], d.config.statePolicy);
    }
  }

  lemma ServerStepReferences(d: Deployment, e: Server, step: Step)
    requires Possible(e, step) && Referenced(e.w.store, e.w.now)
    requires ServerInv(d, e)
    ensures Referenced(After(d, e, step).w.store, After(d, e, step).w.now) <==> FindsItsClient(d, e, step)
  {
    hide ServerInv, Inv, Possible, After, Calls, Enabled, Next, Referenced, FindsClient, FindsItsClient;
    StepIsCall(d, e, step);
    CallFinds(d, e, step);
    ServerParts(d, e);
    NowIsSet(e.w, d.config.statePolicy);
    if Calls(d, e, step) != [] {
      StepReferences(e.w, Calls(d, e, step)[0], d.config.statePolicy);
    }
  }

  lemma {:induction false} ServerReferencesUpTo(d: Deployment, now: Time, steps: seq<Step>, n: nat)
    requires now > ZERO_TIME && ValidPolicy(d.config.statePolicy) && ServerLegal(d, Boot(now), steps)
    requires n <= |steps| && forall i | 0 <= i < n :: FindsItsClient(d, At(d, now, steps, i), steps[i])
    ensures Referenced(At(d, now, steps, n).w.store, At(d, now, steps, n).w.now)
    decreases n
  {
    hide ServerInv, Possible, After, ServerLegal, Referenced, FindsItsClient;
    if n == 0 {
      BootIsReferenced(d, now);
    } else {
      hide At, ServerRun;
      ServerReferencesUpTo(d, now, steps, n - 1);
      ServerRunStep(d, now, steps, n - 1);
      ServerStepReferences(d, At(d, now, steps, n - 1), steps[n - 1]);
    }
  }

  lemma BootIsReferenced(d: Deployment, now: Time)
    ensures Referenced(ServerRun(d, Boot(now), []).w.store, ServerRun(d, Boot(now), []).w.now)
  {
    StartIsReferenced(now);
  }

  /**
   Whatever engine calls interleave, the clients of all live records are registered in every
   state of a run exactly when every creation of a live transaction finds its client.
   */
  lemma ServerRecordsHaveClients(d: Deployment, now: Time, steps: seq<Step>)
    requires now > ZERO_TIME && ValidPolicy(d.config.statePolicy) && ServerLegal(d, Boot(now), steps)
    ensures (forall i | 0 <= i <= |steps| :: LiveStateHasClients(At(d, now, steps, i).w))
            <==> (forall i | 0 <= i < |steps| :: FindsItsClient(d, At(d, now, steps, i), steps[i]))
  {
    hide ServerInv, Possible, After, ServerLegal, Referenced, FindsItsClient, HasLiveState, At, ServerRun;
    if forall i | 0 <= i < |steps| :: FindsItsClient(d, At(d, now, steps, i), steps[i]) {
      forall i | 0 <= i <= |steps|
        ensures LiveStateHasClients(At(d, now, steps, i).w)
      {
        ServerReferencesUpTo(d, now, steps, i);
        ReferencedIsLive(At(d, now, steps, i).w.store, At(d, now, steps, i).w.now);
      }
    }
    if forall i | 0 <= i <= |steps| :: LiveStateHasClients(At(d, now, steps, i).w) {
      forall i | 0 <= i < |steps|
        ensures FindsItsClient(d, At(d, now, steps, i), steps[i])
      {
        var e, e' := At(d, now, steps, i), At(d, now, steps, i + 1);
        assert LiveStateHasClients(e.w) && LiveStateHasClients(e'.w);
        ReferencedIsLive(e.w.store, e.w.now);
        ReferencedIsLive(e'.w.store, e'.w.now);
        ServerRunStep(d, now, steps, i);
        ServerStepReferences(d, e, steps[i]);
      }
    }
  }

  /** In such a run a login on a live transaction, otherwise in order, is always prepared. */
  lemma LoginFindsClient(d: Deployment, now: Time, steps: seq<Step>, presented: string, principal: Principal,
                         a: LoginAnswers)
    requires now > ZERO_TIME && ValidPolicy(d.config.statePolicy) && ServerLegal(d, Boot(now), steps)
    requires forall i | 0 <= i < |steps| :: FindsItsClient(d, At(d, now, steps, i), steps[i])
    requires NewIdentifier(principal.subject).Some? && a.available.Some? && a.token.Some?
    requires var e, k := At(d, now, steps, |steps|), DigestCredential(presented);
             && k in e.w.store.authorizations && a.checkedAt <= e.w.store.authorizations[k].expiresAt
             && LiveAuthorization(e.w.store.authorizations[k], e.w.store.authorizations[k].clientID, e.w.now)
    ensures var e := At(d, now, steps, |steps|);
            var auth := e.w.store.authorizations[DigestCredential(presented)];
            CompleteLogin(d, presented, principal, Some(auth), Lookup(e.w.store.clients, auth.clientID), a).PlanLogin?
  {
    hide ServerInv, ServerLegal, FindsItsClient, At, ServerRun, CompleteLogin, NewIdentifier;
    hide ConsentsReferenced, CodesReferenced, GrantsReferenced;
    var e := At(d, now, steps, |steps|);
    ServerReferencesUpTo(d, now, steps, |steps|);
    ServerRunBetween(d, now, steps, |steps|, |steps|);
    LoginNeedsClient(d, e, presented, principal, a);
  }

  // -------------------------------------------------------------------------
  // How long a call may take
  // -------------------------------------------------------------------------

  /** The step makes a touch of the client that lays its last use before `since`. */
  predicate TouchesBefore(e: Server, step: Step, id: ClientID, since: Time) {
    && Touches(e, step) && !step.fault
    && e.pending[step.i].id == id && step.touchedAt < since
  }

  lemma ClientStaysOnServer(d: Deployment, e: Server, step: Step, id: ClientID, since: Time)
    requires id in e.w.store.clients && e.w.store.clients[id].lastUsedAt >= since && Possible(e, step)
    requires !TouchesBefore(e, step, id, since)
    requires After(d, e, step).w.now < since + d.config.statePolicy.registration.unverifiedClientTTL
    requires ServerInv(d, e)
    ensures id in After(d, e, step).w.store.clients && After(d, e, step).w.store.clients[id].lastUsedAt >= since
  {
    hide ServerInv, Possible, After, Enabled, Next, Calls;
    StepIsCall(d, e, step);
    if Calls(d, e, step) != [] {
      if Calls(d, e, step)[0].Touch? {
        TouchingCall(d, e, step);
      }
      TouchedClientStays(e.w, Calls(d, e, step)[0], id, since, d.config.statePolicy);
    }
  }

  lemma TouchingCall(d: Deployment, e: Server, step: Step)
    requires Calls(d, e, step) != [] && Calls(d, e, step)[0].Touch?
    ensures Touches(e, step) && !step.fault
    ensures Calls(d, e, step)[0] == Touch(e.pending[step.i].id, step.touchedAt)
  {
    hide Engine.MetadataAccepted;
  }

  /** The touch goes through, after which `BeginAuthorization` goes on to create its transaction if it has a token. */
  ghost predicate TouchesClient(e: Server, step: Step, id: ClientID) {
    Touches(e, step) && !step.fault && e.pending[step.i].id == id && id in e.w.store.clients
  }

  lemma TouchTakes(d: Deployment, e: Server, step: Step, id: ClientID)
    requires TouchesClient(e, step, id)
    requires ServerInv(d, e)
    ensures id in After(d, e, step).w.store.clients
    ensures After(d, e, step).w.store.clients[id].lastUsedAt == step.touchedAt
  {
    hide ServerInv, Run, Keep, Record, Enabled;
    OneCall(e.w, Touch(id, step.touchedAt), d.config.statePolicy);
  }

  lemma {:induction false} ClientSurvivesOnServer(d: Deployment, now: Time, steps: seq<Step>, i: nat, j: nat,
                                                  id: ClientID, since: Time)
    requires now > ZERO_TIME && ValidPolicy(d.config.statePolicy) && ServerLegal(d, Boot(now), steps)
    requires i <= j <= |steps|
    requires id in At(d, now, steps, i).w.store.clients && At(d, now, steps, i).w.store.clients[id].lastUsedAt >= since
    requires forall k | i <= k < j :: !TouchesBefore(At(d, now, steps, k), steps[k], id, since)
    requires At(d, now, steps, j).w.now < since + d.config.statePolicy.registration.unverifiedClientTTL
    ensures id in At(d, now, steps, j).w.store.clients && At(d, now, steps, j).w.store.clients[id].lastUsedAt >= since
    decreases j
  {
    hide ServerInv, Possible, After, ServerLegal, At, ServerRun, TouchesBefore;
    if i < j {
      ServerRunStep(d, now, steps, j - 1);
      ServerAges(d, now, steps, j - 1, j);
      ClientSurvivesOnServer(d, now, steps, i, j - 1, id, since);
      ClientStaysOnServer(d, At(d, now, steps, j - 1), steps[j - 1], id, since);
    }
  }

  /**
   A bound a caller can keep: after its touch at step `i` the client is still stored at any
   step `j` before `since` plus the idle time, where `since` is the earliest reading of this
   and of all other touches of the client made from `i` to `j`. A late call may carry an
   older reading than the touch it follows, so its own reading alone does not bound it.
   */
  lemma CreationInTimeFindsClient(d: Deployment, now: Time, steps: seq<Step>, i: nat, j: nat, id: ClientID, since: Time)
    requires now > ZERO_TIME && ValidPolicy(d.config.statePolicy) && ServerLegal(d, Boot(now), steps)
    requires i < j < |steps| && TouchesClient(At(d, now, steps, i), steps[i], id)
    requires forall k | i <= k < j :: !TouchesBefore(At(d, now, steps, k), steps[k], id, since)
    requires Committing(At(d, now, steps, j), steps[j])
    requires var plan := At(d, now, steps, j).pending[steps[j].i].plan; plan.PlanBegin? && plan.auth.clientID == id
    requires steps[j].pruneAt < since + d.config.statePolicy.registration.unverifiedClientTTL
    ensures FindsItsClient(d, At(d, now, steps, j), steps[j])
  {
    hide ServerInv, After, ServerLegal, At, ServerRun;
    ServerRunStep(d, now, steps, i);
    ServerRunStep(d, now, steps, j);
    assert !TouchesBefore(At(d, now, steps, i), steps[i], id, since);
    TouchTakes(d, At(d, now, steps, i), steps[i], id);
    ClientSurvivesOnServer(d, now, steps, i + 1, j, id, since);
    hide Apply, LiveAuthorization;
  }
}
