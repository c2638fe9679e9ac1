/**
 A call that runs alone. The steps of the server, with nothing in between, do to the store and
 tell the caller what the engine's operation does in one go: the state machine that interleaves
 calls and the engine's own methods are two tellings of one program.
 */
module EngineAlone {
  import opened Scopes
  import opened Model
  import opened StoreSpec
  import opened StoreRuns
  import opened Plans
  import opened Requests
  import opened Books
  import opened EngineRuns
  import opened EngineSafety
  import opened EngineReplies
  import opened EngineStores
  import Engine

  /** The step that makes the commit of a call. */
  lemma CommitPerforms(d: Deployment, e: Server, i: nat, pruneAt: Time, now: Time, fault: bool)
    requires Committing(e, Finished(i, pruneAt, now, fault))
    ensures var step := Finished(i, pruneAt, now, fault);
            && (After(d, e, step).w.store, Returned(d, e, step))
               == Perform(e.w.store, e.pending[i].plan, d.config.statePolicy, pruneAt, now, fault)
            && i !in After(d, e, step).pending
  {
    hide Apply, CallOf, ReplyOf, Run, Book;
    CommittedWorld(d, e, Finished(i, pruneAt, now, fault));
  }

  /** A call with one read: it returns at once, or carries its plan to the commit. */
  lemma AloneIsPerform(d: Deployment, e: Server, r: Request, pruneAt: Time, now: Time, fault: bool)
    requires (r.Resolve? || r.Redeem? || r.Renew? || r.Withdraw?) && e.calls !in e.pending
    ensures var plan, read := Outlook(d, e.w.store, r), After(d, e, Begun(r, None));
            if plan.None? || plan.value.Refuse? then e.calls !in read.pending && read.w == e.w
            else
              var step := Finished(e.calls, pruneAt, now, fault);
              && Committing(read, step) && read.pending[e.calls].request == r
              && (After(d, read, step).w.store, Returned(d, read, step))
                 == Perform(e.w.store, plan.value, d.config.statePolicy, pruneAt, now, fault)
              && e.calls !in After(d, read, step).pending
  {
    hide After, Perform, Returned, DecideConsent, ExchangeCode, Refresh, Plans.Revoke, BoundCode;
    BegunMoves(d, e, r, None);
    if r.Withdraw? {
      RevokeExactly(r.presented, r.clientID, Lookup(e.w.store.refresh, DigestCredential(r.presented)), r.at);
    }
    var plan, read := Outlook(d, e.w.store, r), After(d, e, Begun(r, None));
    if plan.Some? && !plan.value.Refuse? {
      CommitPerforms(d, read, e.calls, pruneAt, now, fault);
    }
  }

  /** A login with both of its reads. */
  lemma LoginAlone(d: Deployment, e: Server, r: Request, pruneAt: Time, now: Time, fault: bool)
    requires r.LogIn? && e.calls !in e.pending
    ensures var plan, read := Outlook(d, e.w.store, r), After(d, e, Begun(r, None));
            var second := After(d, read, Continued(e.calls, None));
            if plan.value.Refuse? then e.calls !in second.pending && second.w == e.w
            else
              var step := Finished(e.calls, pruneAt, now, fault);
              && Committing(second, step) && second.pending[e.calls].request == r
              && (After(d, second, step).w.store, Returned(d, second, step))
                 == Perform(e.w.store, plan.value, d.config.statePolicy, pruneAt, now, fault)
              && e.calls !in After(d, second, step).pending
  {
    hide After, Perform, Returned, CompleteLogin;
    BegunMoves(d, e, r, None);
    var read := After(d, e, Begun(r, None));
    ContinuedMoves(d, read, e.calls, None);
    MissingLogin(d, r);
    var second := After(d, read, Continued(e.calls, None));
    if !Outlook(d, e.w.store, r).value.Refuse? {
      CommitPerforms(d, second, e.calls, pruneAt, now, fault);
    }
  }

  lemma ContinuedMoves(d: Deployment, e: Server, i: nat, read: Source)
    ensures var after := After(d, e, Continued(i, read));
            && after.w == e.w
            && after.pending == if i in e.pending && e.pending[i].LoginRead?
                                then Keep(e.pending, i, Proceed(d, Seen(e, read), e.pending[i])) else e.pending
  {
    hide Proceed, Keep, Seen;
    NoCalls(e.w, d.config.statePolicy);
  }

  lemma MissingLogin(d: Deployment, r: Request)
    requires r.LogIn?
    ensures CompleteLogin(d, r.presented, r.principal, None, None, r.login).Refuse?
  {
    hide NewIdentifier;
  }

  /** An authorization, which touches its client on the way even if it has no token to go on with. */
  lemma AuthorizationAlone(d: Deployment, e: Server, r: Request, touchedAt: Time, pruneAt: Time, now: Time, fault: bool)
    requires r.Authorize? && e.calls !in e.pending
    ensures var plan, read := Outlook(d, e.w.store, r).value, After(d, e, Begun(r, None));
            var touched := After(d, read, Touched(e.calls, touchedAt, false));
            if plan.Refuse? && plan.code != Temporary then e.calls !in read.pending && read.w == e.w
            else
              && NewIdentifier(r.input.clientID).Some?
              && touched.w.store == TouchClient(e.w.store, NewIdentifier(r.input.clientID).value, touchedAt).0
              && if plan.Refuse? then e.calls !in touched.pending
                 else
                   var step := Finished(e.calls, pruneAt, now, fault);
                   && Committing(touched, step) && touched.pending[e.calls].request == r
                   && (After(d, touched, step).w.store, Returned(d, touched, step))
                      == Perform(touched.w.store, plan, d.config.statePolicy, pruneAt, now, fault)
                   && e.calls !in After(d, touched, step).pending
  {
    hide After, Perform, Returned, Begin, TouchClient, NewIdentifier, BeginError, AuthFits;
    BegunMoves(d, e, r, None);
    var read := After(d, e, Begun(r, None));
    var id := NewIdentifier(r.input.clientID);
    BeginExactly(d, r.input, if id.Some? then Lookup(e.w.store.clients, id.value) else None, r.transaction, r.at);
    var plan := Outlook(d, e.w.store, r).value;
    if !(plan.Refuse? && plan.code != Temporary) {
      BeginNeedsClient(d, e.w.store, r);
      TouchedMoves(d, read, e.calls, touchedAt);
      if !plan.Refuse? {
        CommitPerforms(d, After(d, read, Touched(e.calls, touchedAt, false)), e.calls, pruneAt, now, fault);
      }
    }
  }

  /** Only a call that found its client is still in the running for a token. */
  lemma BeginNeedsClient(d: Deployment, s: State, r: Request)
    requires r.Authorize?
    requires var plan := Outlook(d, s, r).value; !(plan.Refuse? && plan.code != Temporary)
    ensures NewIdentifier(r.input.clientID).Some? && NewIdentifier(r.input.clientID).value in s.clients
  {
    hide NewIdentifier, NewURLIdentifier, FromValues, IsSubsetOf;
  }

  lemma TouchedMoves(d: Deployment, e: Server, i: nat, touchedAt: Time)
    requires i in e.pending && e.pending[i].Touching? && e.pending[i].id in e.w.store.clients
    ensures var after := After(d, e, Touched(i, touchedAt, false));
            && after.w.store == TouchClient(e.w.store, e.pending[i].id, touchedAt).0
            && after.pending == Keep(e.pending, i, Kept(e.pending[i].request, e.pending[i].plan))
  {
    hide Run, Next, Enabled, Keep, Kept;
    NoCalls(e.w, d.config.statePolicy);
    OneCall(e.w, Touch(e.pending[i].id, touchedAt), d.config.statePolicy);
    TouchStep(e.w, e.pending[i].id, touchedAt, d.config.statePolicy);
  }
}
