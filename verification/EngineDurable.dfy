/**
 The engine over the SQLite store. A run reads the tables and goes on as the tables answer;
 it keeps in step with a run of the server of `EngineRuns`, so that what is proved of every
 run of that server holds of the engine over SQLite, and of the rows it leaves.
 */
module EngineDurable {
  import opened Scopes
  import opened Model
  import opened StoreSpec
  import opened StoreRuns
  import opened StoreSafety
  import opened FamilySafety
  import opened SqliteStore
  import opened Readings
  import opened StoreAgreement
  import opened Plans
  import opened Requests
  import opened Books
  import opened EngineRuns
  import opened EngineSafety
  import opened EngineTokens
  import opened EngineReplies
  import Engine

  // -------------------------------------------------------------------------
  // Runs over the tables
  // -------------------------------------------------------------------------

  /** A call sees the tables when it reads; its commit reads the clock once. */
  predicate OverTables(step: Step) {
    match step
    case Begun(_, read) => read.None?
    case Continued(_, read) => read.None?
    case Finished(_, pruneAt, now, _) => pruneAt == now
    case _ => true
  }

  /**
   One step of the engine over the tables. The store of `b` is what the tables hold; its
   store call is one of the SQLite store, and the engine goes on as that answers.
   */
  ghost predicate DurableStep(d: Deployment, b: Server, t: Tables, step: Step, b': Server, t': Tables, r: Outcome) {
    var calls := Calls(d, b, step);
    && OverTables(step) && Possible(b, step)
    && b' == Moved(d, b, step, calls != [] && r.Ok?).(w := b'.w)
    && if calls == [] then t' == t && b'.w == b.w
       else
         && DurableCall(t, t', r, calls[0], d.config.statePolicy)
         && b'.w == World(View(t'), if r.Ok? then Record(b.w.past, calls[0]) else b.w.past,
                          TimeAfter(calls[0], b.w.now))
  }

  const NO_ROWS: Tables := Tables(map[], map[], map[], map[], map[])

  /** A run from empty tables: the servers and the tables before and after each step, and the answers. */
  ghost predicate DurableRun(d: Deployment, now: Time, bs: seq<Server>, ts: seq<Tables>, rs: seq<Outcome>,
                             steps: seq<Step>)
  {
    && |bs| == |ts| == |steps| + 1 && |rs| == |steps|
    && bs[0] == Boot(now) && ts[0] == NO_ROWS
    && forall i | 0 <= i < |steps| :: DurableStep(d, bs[i], ts[i], steps[i], bs[i + 1], ts[i + 1], rs[i])
  }

  /** What the later call compares of what the earlier one brought, it compares exactly. */
  predicate Ordered(earlier: seq<Event>, later: seq<Event>, policy: RegistrationPolicy, now: Time) {
    earlier != [] && later != [] && ReadsClock(later[0])
    ==> RecordTimed(earlier[0], policy, TimeAfter(later[0], now))
  }

  ghost predicate TextsInOrder(d: Deployment, bs: seq<Server>, steps: seq<Step>)
    requires |bs| == |steps| + 1
  {
    forall i, j | 0 <= j < i < |steps| ::
      Ordered(Calls(d, bs[j], steps[j]), Calls(d, bs[i], steps[i]), d.config.statePolicy.registration, bs[i].w.now)
  }

  /** The same step of a server whose reads are served by the state. */
  function Seeing(step: Step, s: State): Step {
    match step
    case Begun(r, _) => Begun(r, Some(s))
    case Continued(i, _) => Continued(i, Some(s))
    case _ => step
  }

  /** The same steps with the tables as what every read sees. */
  ghost function Mirrored(ts: seq<Tables>, steps: seq<Step>): (mirrored: seq<Step>)
    requires |ts| == |steps| + 1
    ensures |mirrored| == |steps|
    ensures forall i | 0 <= i < |steps| :: mirrored[i] == Seeing(steps[i], View(ts[i]))
  {
    seq(|steps|, i requires 0 <= i < |steps| => Seeing(steps[i], View(ts[i])))
  }

  // -------------------------------------------------------------------------
  // In step
  // -------------------------------------------------------------------------

  /** The two differ in nothing but the store. */
  ghost predicate Twins(e: Server, b: Server) {
    b == e.(w := e.w.(store := b.w.store))
  }

  ghost predicate InStep(d: Deployment, e: Server, b: Server, t: Tables) {
    && Twins(e, b) && b.w.store == View(t) && Sound(t) && InsertedUnspent(t)
    && Agree(e.w.store, View(t), e.w.now)
    && Inv(b.w, d.config.statePolicy)
    && ServerInv(d, e)
  }

  lemma RowsAreKnown(w: World, policy: StatePolicy)
    requires Inv(w, policy)
    ensures RowsKnown(w.store, w.past)
  {
    hide AuthsKnown, ConsentsKnown, CodesKnown, GrantsKnown, TransactionsSpent, ConsentsSpent, CodesSpent;
    hide FamiliesInv, WholeFamilies, Retained, ActiveGrants;
  }

  lemma TablesReadable(d: Deployment, e: Server, b: Server, t: Tables)
    requires InStep(d, e, b, t)
    ensures Readable(e, View(t))
  {
    hide ServerInv, Inv, RowsKnown, View, Blank, Prune, Sound, InsertedUnspent;
    RowsAreKnown(b.w, d.config.statePolicy);
    BlankView(t);
  }

  /** What is possible over the tables is possible for the server that reads them. */
  lemma PossibleForTwin(e: Server, b: Server, step: Step)
    requires Twins(e, b) && OverTables(step) && Possible(b, step) && Readable(e, b.w.store)
    ensures Possible(e, Seeing(step, b.w.store))
  {
    hide Readable, Secrets, PlanTime;
  }

  lemma MovesAlike(d: Deployment, e: Server, b: Server, step: Step, ok: bool)
    requires Twins(e, b) && OverTables(step)
    ensures Calls(d, e, Seeing(step, b.w.store)) == Calls(d, b, step)
    ensures Twins(Moved(d, e, Seeing(step, b.w.store), ok), Moved(d, b, step, ok))
    ensures Moved(d, b, step, ok).w == b.w
  {
    hide Keep, Draw, Book, Prepare, Proceed, CallOf, Engine.MetadataAccepted, Engine.NewClient, Secrets;
  }

  // -------------------------------------------------------------------------
  // The store call of a step
  // -------------------------------------------------------------------------

  lemma PlansAreUnspent(d: Deployment, past: Past, registered: map<ClientID, Client>, drawn: map<string, nat>,
                        i: nat, plan: Plan, pruneAt: Time, now: Time)
    requires PlanKnown(d, past, registered, drawn, i, plan)
    ensures RecordUnspent(CallOf(plan, pruneAt, now)) && !CallOf(plan, pruneAt, now).Register?
  {
    hide Owned, IsSubsetOf, Elements, LoginBound, ConsentBound, ExchangeBound, RotationFact, Verifies;
  }

  lemma FreshID(d: Deployment, e: Server, id: ClientID)
    requires id !in e.drawn
    requires ServerInv(d, e)
    ensures id !in e.w.store.clients
  {
    hide Inv, SecretsStored, PendingKnown, Booked;
  }

  /** A call that reads the clock once and registers only under a new ID. */
  ghost predicate Plain(s: State, call: Event) {
    RecordUnspent(call) && call == AtOnce(call) && (call.Register? ==> call.client.id !in s.clients)
  }

  lemma StepIsPlain(d: Deployment, e: Server, step: Step)
    requires Calls(d, e, step) != [] && Possible(e, step) && (step.Finished? ==> step.pruneAt == step.now)
    requires ServerInv(d, e)
    ensures Plain(e.w.store, Calls(d, e, step)[0])
  {
    hide ServerInv, PlanKnown, SecretsStored, Engine.MetadataAccepted, RecordUnspent, Readable;
    if step.Finished? {
      PlanIsKnown(d, e, step);
      PlansAreUnspent(d, e.w.past, e.ledger.registered, e.drawn, step.i, e.pending[step.i].plan, step.pruneAt,
                      step.now);
    } else {
      if step.Enroll? {
        FreshID(d, e, step.id);
      }
      OtherRecords(d, e, step);
    }
  }

  lemma OtherRecords(d: Deployment, e: Server, step: Step)
    requires Calls(d, e, step) != [] && !step.Finished?
    ensures RecordUnspent(Calls(d, e, step)[0]) && Calls(d, e, step)[0] == AtOnce(Calls(d, e, step)[0])
  {
    hide Engine.MetadataAccepted, CallOf;
  }

  /** A plain call never tells the stores apart. */
  lemma PlainAgrees(s: State, call: Event, policy: StatePolicy)
    requires Plain(s, call) && (ReadsTwice(call) ==> call.now > ZERO_TIME)
    ensures !AnswersDiffer(s, call, policy) && !Diverges(s, call, policy)
  {
    hide Apply, AnswersDiffer, ReadingsDiverge, Evictable;
    TwoReadings(s, call, policy);
    if !ReadsTwice(call) {
      OneReading(s, call, policy);
    }
  }

  lemma OneReading(s: State, call: Event, policy: StatePolicy)
    requires !ReadsTwice(call)
    ensures !ReadingsDiverge(s, call, policy)
  {
  }

  // -------------------------------------------------------------------------
  // The tables keep the store's invariant
  // -------------------------------------------------------------------------

  lemma BlankKeepsAuths(rows: Auths, past: Past)
    requires AuthsKnown(rows, past.auths) && TransactionsSpent(rows, past.auths, past.consents)
    ensures AuthsKnown(BlankAuthorizations(rows), past.auths)
    ensures TransactionsSpent(BlankAuthorizations(rows), past.auths, past.consents)
  {
    hide LoginBound;
  }

  lemma BlankKeepsConsents(rows: Consents, past: Past)
    requires ConsentsKnown(rows, past.consents) && ConsentsSpent(rows, past.consents, past.codes)
    ensures ConsentsKnown(BlankConsents(rows), past.consents)
    ensures ConsentsSpent(BlankConsents(rows), past.consents, past.codes)
  {
    hide ConsentBound;
  }

  /** Forgetting the tokens of transactions and consents does no harm. */
  lemma BlankKeeps(w: World, policy: StatePolicy)
    requires Inv(w, policy)
    ensures Inv(w.(store := Blank(w.store)), policy)
  {
    hide AuthsKnown, ConsentsKnown, CodesKnown, TransactionsSpent, ConsentsSpent, CodesSpent, FamiliesInv, RowsInv;
    hide ActiveGrants, BlankAuthorizations, BlankConsents;
    BlankKeepsAuths(w.store.authorizations, w.past);
    BlankKeepsConsents(w.store.consents, w.past);
  }

  /** What the tables are pruned to before a call that reads the clock; otherwise what they are. */
  ghost function Prepared(s: State, call: Event, now: Time): State {
    if ReadsClock(call) then Prune(s, TimeAfter(call, now)) else s
  }

  /** In the tables the specification's call is made on what the prune leaves. */
  lemma AttemptIsApply(t: Tables, call: Event, policy: StatePolicy, now: Time)
    requires Sound(t) && InsertedUnspent(t) && call == AtOnce(call) && 0 < now <= TimeAfter(call, now)
    requires ReadsClock(call) ==> Timed(t, policy.registration, TimeAfter(call, now))
    ensures Attempt(t, call, policy) == Apply(Prepared(View(t), call, now), call, policy)
  {
    hide View, Prune, PruneTx, PruneClientsTx, Evict, RevokeFamily, Sound, InsertedUnspent, RowsExact;
    hide CreateAuthorization, CommitLogin, CommitConsent, CommitCodeExchange, CommitRefreshRotation;
    var u := TimeAfter(call, now);
    if ReadsClock(call) {
      PruneTxView(t, u);
      PruneAbsorbs(View(t), u, u);
      if call.Register? {
        PruneTxTimed(t, policy.registration, u);
        PruneTxSound(t, u);
        PruneClientsView(PruneTx(t, u), policy.registration, u);
      }
    }
  }

  /** What one world allows, another with the same past and the same answer allows as well. */
  lemma EnabledElsewhere(w: World, w': World, call: Event, policy: StatePolicy)
    requires Enabled(w, call, policy) && w'.past == w.past && w'.now <= TimeAfter(call, w.now)
    requires Apply(w'.store, call, policy).1 == Apply(w.store, call, policy).1
    requires call == AtOnce(call)
    ensures Enabled(w', call, policy)
  {
    hide Apply;
  }

  /** The tables' own history: a call that commits, or is rolled back, keeps the invariant. */
  lemma TablesKeep(b: World, past': Past, t: Tables, t': Tables, r: Outcome, call: Event, w: World, policy: StatePolicy)
    requires b.store == View(t) && Sound(t) && InsertedUnspent(t) && Performs(t, t', r, call, policy)
    requires call == AtOnce(call) && b.now <= TimeAfter(call, b.now) && ValidPolicy(policy)
    requires ReadsClock(call) ==> Timed(t, policy.registration, TimeAfter(call, b.now))
    requires w.past == b.past && w.now == b.now && Enabled(w, call, policy) && r == Apply(w.store, call, policy).1
    requires past' == if r.Ok? then Record(b.past, call) else b.past
    requires Inv(b, policy)
    ensures Inv(World(View(t'), past', TimeAfter(call, b.now)), policy)
  {
    hide Inv, View, Blank, Prune, Attempt, Apply, Record, Sound, InsertedUnspent, Timed, Enabled;
    NowIsPositive(b, policy);
    AttemptIsApply(t, call, policy, b.now);
    var u := TimeAfter(call, b.now);
    var p := World(Prepared(b.store, call, b.now), b.past, u);
    PreparedKeeps(b, call, policy);
    EnabledElsewhere(w, p, call, policy);
    StepKeeps(p, call, policy);
    assert Next(p, call, policy) == World(Attempt(t, call, policy).0, past', u);
    BlankKeeps(Next(p, call, policy), policy);
    AgeKeeps(b, u, policy);
    assert r.Err? ==> World(View(t), past', u) == b.(now := u);
  }

  lemma NowIsPositive(w: World, policy: StatePolicy)
    requires Inv(w, policy)
    ensures w.now > ZERO_TIME && |w.store.clients| <= policy.registration.maxClients
  {
  }

  lemma PreparedKeeps(b: World, call: Event, policy: StatePolicy)
    requires b.now <= TimeAfter(call, b.now)
    requires Inv(b, policy)
    ensures Inv(World(Prepared(b.store, call, b.now), b.past, TimeAfter(call, b.now)), policy)
  {
    hide Inv, Prune;
    if ReadsClock(call) {
      PruneKeeps(b, TimeAfter(call, b.now), policy);
    } else {
      assert World(b.store, b.past, TimeAfter(call, b.now)) == b;
    }
  }

  // -------------------------------------------------------------------------
  // One step
  // -------------------------------------------------------------------------

  lemma CallInStep(d: Deployment, e: Server, b: Server, t: Tables, call: Event, b': World, t': Tables, r: Outcome)
    requires InStep(d, e, b, t) && ValidPolicy(d.config.statePolicy)
    requires DurableCall(t, t', r, call, d.config.statePolicy)
    requires b' == World(View(t'), if r.Ok? then Record(b.w.past, call) else b.w.past, TimeAfter(call, b.w.now))
    requires Plain(e.w.store, call) && Enabled(e.w, call, d.config.statePolicy)
    requires ReadsClock(call) ==> Timed(t, d.config.statePolicy.registration, TimeAfter(call, b.w.now))
    ensures r == Apply(e.w.store, call, d.config.statePolicy).1
    ensures var w := Next(e.w, call, d.config.statePolicy);
            && b' == w.(store := View(t')) && Agree(w.store, View(t'), w.now)
    ensures Sound(t') && InsertedUnspent(t') && Inv(b', d.config.statePolicy)
  {
    hide ServerInv, Inv, View, Agree, Apply, Record, Sound, InsertedUnspent, Timed, Writes, Performs, RecordUnspent;
    hide AnswersDiffer, Diverges;
    var policy := d.config.statePolicy;
    ServerParts(d, e);
    NowIsPositive(e.w, policy);
    ClockForward(e.w, call, policy);
    PlainAgrees(e.w.store, call, policy);
    StepAgrees(e.w.store, t, t', r, call, policy, e.w.now);
    UnspentStays(t, t', call);
    TablesKeep(b.w, b'.past, t, t', r, call, e.w, policy);
  }

  lemma ClockForward(w: World, call: Event, policy: StatePolicy)
    requires Enabled(w, call, policy)
    ensures w.now <= TimeAfter(call, w.now)
    ensures ReadsTwice(call) ==> w.now <= call.pruneAt <= call.now
  {
    hide Apply;
  }

  /** What is possible in step is in step afterwards. */
  lemma StepInStep(d: Deployment, e: Server, b: Server, t: Tables, step: Step, b': Server, t': Tables, r: Outcome)
    requires DurableStep(d, b, t, step, b', t', r) && ValidPolicy(d.config.statePolicy)
    requires forall call | call in Calls(d, b, step) && ReadsClock(call) ::
               Timed(t, d.config.statePolicy.registration, TimeAfter(call, b.w.now))
    requires InStep(d, e, b, t)
    ensures Possible(e, Seeing(step, View(t)))
    ensures InStep(d, After(d, e, Seeing(step, View(t))), b', t')
    ensures Calls(d, b, step) != [] ==> r == Apply(e.w.store, Calls(d, b, step)[0], d.config.statePolicy).1
  {
    hide ServerInv, Inv, View, Agree, Apply, Record, Sound, InsertedUnspent, Timed, DurableCall, Calls, Moved, Possible;
    hide Readable, Plain, Enabled, Next;
    var step', policy := Seeing(step, View(t)), d.config.statePolicy;
    TablesReadable(d, e, b, t);
    PossibleForTwin(e, b, step);
    var calls := Calls(d, e, step');
    var ok := calls != [] && r.Ok?;
    MovesAlike(d, e, b, step, ok);
    ServerStepKeeps(d, e, step');
    StepIsCall(d, e, step');
    if calls != [] {
      StepIsPlain(d, e, step');
      CallInStep(d, e, b, t, calls[0], b'.w, t', r);
      NextWorld(e.w, calls[0], policy);
    }
    assert CallSucceeds(d, e, step') == ok;
    MovedKeepsWorld(d, e, step', ok);
  }

  lemma MovedKeepsWorld(d: Deployment, e: Server, step: Step, ok: bool)
    ensures Moved(d, e, step, ok).w == e.w
  {
    hide Keep, Draw, Book, Prepare, Proceed, Engine.MetadataAccepted, Engine.NewClient, Secrets;
  }

  // -------------------------------------------------------------------------
  // Whole runs
  // -------------------------------------------------------------------------

  lemma StepKeepsTimed(d: Deployment, b: Server, t: Tables, step: Step, b': Server, t': Tables, r: Outcome,
                       later: seq<Event>, now: Time)
    requires DurableStep(d, b, t, step, b', t', r)
    requires Ordered(Calls(d, b, step), later, d.config.statePolicy.registration, now)
    requires later != [] && ReadsClock(later[0])
    requires Timed(t, d.config.statePolicy.registration, TimeAfter(later[0], now))
    ensures Timed(t', d.config.statePolicy.registration, TimeAfter(later[0], now))
  {
    hide Calls, Possible, Moved, Timed, RecordTimed, Performs, Writes, Sound, Record, View;
    var calls := Calls(d, b, step);
    if calls != [] {
      TimedStays(t, t', calls[0], d.config.statePolicy.registration, TimeAfter(later[0], now));
    }
  }

  /** Every row is in order with every later call, whether the stores are in step or not. */
  lemma {:induction false} TimedBefore(d: Deployment, now: Time, bs: seq<Server>, ts: seq<Tables>, rs: seq<Outcome>,
                                       steps: seq<Step>, n: nat, i: nat)
    requires DurableRun(d, now, bs, ts, rs, steps) && TextsInOrder(d, bs, steps) && n <= i < |steps|
    requires Calls(d, bs[i], steps[i]) != [] && ReadsClock(Calls(d, bs[i], steps[i])[0])
    ensures Timed(ts[n], d.config.statePolicy.registration, TimeAfter(Calls(d, bs[i], steps[i])[0], bs[i].w.now))
    decreases n
  {
    hide DurableStep, Calls, Timed, Ordered;
    var later := Calls(d, bs[i], steps[i]);
    if n == 0 {
      NothingIsTimed(d.config.statePolicy.registration, TimeAfter(later[0], bs[i].w.now));
    } else {
      TimedBefore(d, now, bs, ts, rs, steps, n - 1, i);
      assert Ordered(Calls(d, bs[n - 1], steps[n - 1]), later, d.config.statePolicy.registration, bs[i].w.now);
      StepKeepsTimed(d, bs[n - 1], ts[n - 1], steps[n - 1], bs[n], ts[n], rs[n - 1], later, bs[i].w.now);
    }
  }

  lemma {:induction false} OneStepMore(d: Deployment, e: Server, steps: seq<Step>, step: Step)
    requires ServerLegal(d, e, steps) && Possible(ServerRun(d, e, steps), step)
    ensures ServerLegal(d, e, steps + [step])
    ensures ServerRun(d, e, steps + [step]) == After(d, ServerRun(d, e, steps), step)
    decreases |steps|
  {
    hide Possible, After;
    if steps == [] {
      assert [step][1..] == [];
    } else {
      assert (steps + [step])[1..] == steps[1..] + [step];
      OneStepMore(d, After(d, e, steps[0]), steps[1..], step);
    }
  }

  lemma BootInStep(d: Deployment, now: Time)
    requires now > ZERO_TIME && ValidPolicy(d.config.statePolicy)
    ensures InStep(d, Boot(now), Boot(now), NO_ROWS)
  {
    hide ServerInv, Inv, Agree, Sound, InsertedUnspent;
    BootHolds(d, now);
    ServerParts(d, Boot(now));
    EmptyStoresAgree(now);
    NothingToView();
  }

  lemma NothingToView()
    ensures View(NO_ROWS) == EMPTY
  {
  }

  lemma LaterInStep(d: Deployment, now: Time, bs: seq<Server>, ts: seq<Tables>, rs: seq<Outcome>, steps: seq<Step>,
                    m: nat)
    requires ValidPolicy(d.config.statePolicy)
    requires DurableRun(d, now, bs, ts, rs, steps) && TextsInOrder(d, bs, steps) && m < |steps|
    requires InStep(d, At(d, now, Mirrored(ts, steps), m), bs[m], ts[m])
    ensures var e, step := At(d, now, Mirrored(ts, steps), m), Mirrored(ts, steps)[m];
            Possible(e, step) && InStep(d, After(d, e, step), bs[m + 1], ts[m + 1])
    ensures Calls(d, bs[m], steps[m]) != [] ==>
              rs[m] == Apply(At(d, now, Mirrored(ts, steps), m).w.store, Calls(d, bs[m], steps[m])[0],
                             d.config.statePolicy).1
  {
    hide InStep, DurableStep, Possible, After, Timed, Calls, TextsInOrder, View, Apply, At;
    forall call | call in Calls(d, bs[m], steps[m]) && ReadsClock(call)
      ensures Timed(ts[m], d.config.statePolicy.registration, TimeAfter(call, bs[m].w.now))
    {
      AtMostOneCall(d, bs[m], steps[m]);
      assert call == Calls(d, bs[m], steps[m])[0];
      TimedBefore(d, now, bs, ts, rs, steps, m, m);
    }
    StepInStep(d, At(d, now, Mirrored(ts, steps), m), bs[m], ts[m], steps[m], bs[m + 1], ts[m + 1], rs[m]);
  }

  lemma {:induction false} InStepUpTo(d: Deployment, now: Time, bs: seq<Server>, ts: seq<Tables>, rs: seq<Outcome>,
                                      steps: seq<Step>, n: nat)
    requires now > ZERO_TIME && ValidPolicy(d.config.statePolicy)
    requires DurableRun(d, now, bs, ts, rs, steps) && TextsInOrder(d, bs, steps) && n <= |steps|
    ensures ServerLegal(d, Boot(now), Mirrored(ts, steps)[..n])
    ensures InStep(d, At(d, now, Mirrored(ts, steps), n), bs[n], ts[n])
    decreases n
  {
    hide InStep, DurableStep, Possible, After, Timed, Calls, TextsInOrder, View;
    if n == 0 {
      BootInStep(d, now);
    } else {
      hide ServerLegal, ServerRun;
      var m, mirrored := n - 1, Mirrored(ts, steps);
      InStepUpTo(d, now, bs, ts, rs, steps, m);
      LaterInStep(d, now, bs, ts, rs, steps, m);
      OneStepMore(d, Boot(now), mirrored[..m], mirrored[m]);
      assert mirrored[..n] == mirrored[..m] + [mirrored[m]];
    }
  }

  /**
   The engine over the SQLite store, reading its tables and acting on their answers, is at
   every moment where the server of `EngineRuns` is whose reads see the same tables: the
   same calls under way, the same secrets drawn, the same books, the same past. Their stores
   agree. So every theorem about runs of that server is one about the engine over SQLite.
   */
  lemma EngineOnSqlite(d: Deployment, now: Time, bs: seq<Server>, ts: seq<Tables>, rs: seq<Outcome>, steps: seq<Step>)
    requires now > ZERO_TIME && ValidPolicy(d.config.statePolicy)
    requires DurableRun(d, now, bs, ts, rs, steps) && TextsInOrder(d, bs, steps)
    ensures ServerLegal(d, Boot(now), Mirrored(ts, steps))
    ensures forall n | 0 <= n <= |steps| :: Twins(At(d, now, Mirrored(ts, steps), n), bs[n])
    ensures forall n | 0 <= n <= |steps| ::
              && bs[n].w.store == View(ts[n])
              && Agree(At(d, now, Mirrored(ts, steps), n).w.store, View(ts[n]), bs[n].w.now)
    ensures forall n | 0 <= n < |steps| && Calls(d, bs[n], steps[n]) != [] ::
              rs[n] == Apply(At(d, now, Mirrored(ts, steps), n).w.store, Calls(d, bs[n], steps[n])[0],
                             d.config.statePolicy).1
  {
    hide InStep, DurableStep, TextsInOrder, ServerLegal, Twins, Agree, View, At, Calls, Apply;
    var mirrored := Mirrored(ts, steps);
    InStepUpTo(d, now, bs, ts, rs, steps, |steps|);
    assert mirrored[..|steps|] == mirrored;
    forall n | 0 <= n <= |steps|
      ensures Twins(At(d, now, mirrored, n), bs[n])
      ensures bs[n].w.store == View(ts[n]) && Agree(At(d, now, mirrored, n).w.store, View(ts[n]), bs[n].w.now)
    {
      InStepUpTo(d, now, bs, ts, rs, steps, n);
      InStepSays(d, At(d, now, mirrored, n), bs[n], ts[n]);
    }
    forall n | 0 <= n < |steps| && Calls(d, bs[n], steps[n]) != []
      ensures rs[n] == Apply(At(d, now, mirrored, n).w.store, Calls(d, bs[n], steps[n])[0], d.config.statePolicy).1
    {
      InStepUpTo(d, now, bs, ts, rs, steps, n);
      LaterInStep(d, now, bs, ts, rs, steps, n);
    }
  }

  lemma InStepSays(d: Deployment, e: Server, b: Server, t: Tables)
    requires InStep(d, e, b, t)
    ensures Twins(e, b) && b.w.store == View(t) && Agree(e.w.store, View(t), b.w.now) && e.w.now == b.w.now
  {
    hide Agree, View, ServerInv, Inv;
  }

  // -------------------------------------------------------------------------
  // What that carries over
  // -------------------------------------------------------------------------

  /** Every token that the engine issues over the tables is traced. */
  lemma TokensOnSqlite(d: Deployment, now: Time, bs: seq<Server>, ts: seq<Tables>, rs: seq<Outcome>, steps: seq<Step>)
    requires now > ZERO_TIME && ValidPolicy(d.config.statePolicy)
    requires DurableRun(d, now, bs, ts, rs, steps) && TextsInOrder(d, bs, steps)
    ensures forall x | x in bs[|steps|].ledger.issued :: TokenTraced(d, bs[|steps|].w.past, bs[|steps|].ledger, x)
  {
    hide DurableStep, TextsInOrder, ServerLegal, At, Agree, View, ServerInv, Inv, Sound, InsertedUnspent, TokenTraced;
    InStepUpTo(d, now, bs, ts, rs, steps, |steps|);
    var e := At(d, now, Mirrored(ts, steps), |steps|);
    forall x | x in bs[|steps|].ledger.issued
      ensures TokenTraced(d, bs[|steps|].w.past, bs[|steps|].ledger, x)
    {
      TokenIsTraced(d, e, x);
    }
  }

  /** A call that presents a credential is the commit of the step. */
  lemma PresentsAtCommit(d: Deployment, e: Server, step: Step)
    requires Calls(d, e, step) != [] && Presents(Calls(d, e, step)[0]) != NoCredential
    ensures Committing(e, step) && !step.fault && Commits(e, step) == Presents(Calls(d, e, step)[0])
    ensures Answer(d, e, step) == Apply(e.w.store, Calls(d, e, step)[0], d.config.statePolicy).1
  {
    hide Apply, CallOf, Engine.MetadataAccepted;
  }

  lemma CallsOfTwins(d: Deployment, now: Time, bs: seq<Server>, ts: seq<Tables>, rs: seq<Outcome>, steps: seq<Step>,
                     i: nat)
    requires now > ZERO_TIME && ValidPolicy(d.config.statePolicy)
    requires DurableRun(d, now, bs, ts, rs, steps) && TextsInOrder(d, bs, steps) && i < |steps|
    ensures Calls(d, At(d, now, Mirrored(ts, steps), i), Mirrored(ts, steps)[i]) == Calls(d, bs[i], steps[i])
    ensures Calls(d, bs[i], steps[i]) != [] ==>
              rs[i] == Apply(At(d, now, Mirrored(ts, steps), i).w.store, Calls(d, bs[i], steps[i])[0],
                             d.config.statePolicy).1
  {
    hide TextsInOrder, Possible, Moved, DurableCall, Record, Twins, Agree, View, At, Calls, Apply, ServerLegal;
    EngineOnSqlite(d, now, bs, ts, rs, steps);
    assert DurableStep(d, bs[i], ts[i], steps[i], bs[i + 1], ts[i + 1], rs[i]);
    MovesAlike(d, At(d, now, Mirrored(ts, steps), i), bs[i], steps[i], false);
  }

  /** Of all commits that present one credential to the tables, at most one is answered with success. */
  lemma SpentOnceOnSqlite(d: Deployment, now: Time, bs: seq<Server>, ts: seq<Tables>, rs: seq<Outcome>,
                          steps: seq<Step>, i: nat, j: nat)
    requires now > ZERO_TIME && ValidPolicy(d.config.statePolicy)
    requires DurableRun(d, now, bs, ts, rs, steps) && TextsInOrder(d, bs, steps) && i < j < |steps|
    requires Calls(d, bs[i], steps[i]) != [] && Calls(d, bs[j], steps[j]) != []
    requires Presents(Calls(d, bs[i], steps[i])[0]) == Presents(Calls(d, bs[j], steps[j])[0]) != NoCredential
    ensures !(rs[i].Ok? && rs[j].Ok?)
  {
    hide DurableStep, TextsInOrder, Agree, View, At, Calls, Apply, ServerLegal, Committing, Commits, Answer, Presents;
    var mirrored := Mirrored(ts, steps);
    EngineOnSqlite(d, now, bs, ts, rs, steps);
    CallsOfTwins(d, now, bs, ts, rs, steps, i);
    CallsOfTwins(d, now, bs, ts, rs, steps, j);
    PresentsAtCommit(d, At(d, now, mirrored, i), mirrored[i]);
    PresentsAtCommit(d, At(d, now, mirrored, j), mirrored[j]);
    if rs[i].Ok? && rs[j].Ok? {
      EngineSpendsOnce(d, now, mirrored, i, j);
    }
  }

  /**
   Once a call that presented a spent token has returned, unless its own store call failed
   outright, no live row of the family is left active in the tables.
   */
  lemma ReplayOnSqlite(d: Deployment, now: Time, bs: seq<Server>, ts: seq<Tables>, rs: seq<Outcome>, steps: seq<Step>,
                       b: nat, m: nat)
    requires now > ZERO_TIME && ValidPolicy(d.config.statePolicy)
    requires DurableRun(d, now, bs, ts, rs, steps) && TextsInOrder(d, bs, steps)
    requires b < m <= |steps| && steps[b].Begun? && steps[b].request.Renew? && steps[b].request.presented != ""
    requires Spent(bs[b].w, RefreshToken(DigestCredential(steps[b].request.presented)))
    requires var r, g := steps[b].request, bs[b].w.past.grants[DigestCredential(steps[b].request.presented)];
             NewIdentifier(r.clientID) == Some(g.clientID) && bs[b].w.now < g.expiresAt && r.renewal.now <= g.expiresAt
    requires bs[b].calls !in bs[m].pending
    requires forall f | b < f < m :: !(steps[f].Finished? && steps[f].i == bs[b].calls && steps[f].fault)
    ensures NoneActive(View(ts[m]).refresh, bs[b].w.past.grants[DigestCredential(steps[b].request.presented)].familyID,
                       bs[m].w.now)
  {
    hide DurableStep, TextsInOrder, Agree, View, At, Calls, Apply, ServerLegal, NewIdentifier, Dead, NoneActive;
    var mirrored := Mirrored(ts, steps);
    EngineOnSqlite(d, now, bs, ts, rs, steps);
    assert Twins(At(d, now, mirrored, b), bs[b]) && Twins(At(d, now, mirrored, m), bs[m]);
    SpentForTwin(d, now, bs, ts, rs, steps, b, DigestCredential(steps[b].request.presented));
    ReplayEndsFamily(d, now, mirrored, b, m);
    DeadInBoth(At(d, now, mirrored, m).w, View(ts[m]),
               bs[b].w.past.grants[DigestCredential(steps[b].request.presented)].familyID);
  }

  /** Whether a token of an unexpired family is spent is written in the past: it has a successor. */
  lemma SpentInBoth(w: World, w': World, k: CredentialDigest, policy: StatePolicy)
    requires w'.past == w.past && w'.now == w.now
    requires Spent(w, RefreshToken(k)) && w.now < w.past.grants[k].expiresAt
    requires Inv(w, policy) && Inv(w', policy)
    ensures Spent(w', RefreshToken(k))
  {
    hide CredentialInv, Chained, Related, GenerationsBounded, WholeFamilies, ActiveGrants;
  }

  lemma SpentForTwin(d: Deployment, now: Time, bs: seq<Server>, ts: seq<Tables>, rs: seq<Outcome>, steps: seq<Step>,
                     n: nat, k: CredentialDigest)
    requires now > ZERO_TIME && ValidPolicy(d.config.statePolicy)
    requires DurableRun(d, now, bs, ts, rs, steps) && TextsInOrder(d, bs, steps) && n <= |steps|
    requires Spent(bs[n].w, RefreshToken(k)) && bs[n].w.now < bs[n].w.past.grants[k].expiresAt
    ensures Spent(At(d, now, Mirrored(ts, steps), n).w, RefreshToken(k))
  {
    hide DurableStep, TextsInOrder, Agree, View, At, ServerInv, Inv, Spent, Sound, InsertedUnspent;
    InStepUpTo(d, now, bs, ts, rs, steps, n);
    ServerParts(d, At(d, now, Mirrored(ts, steps), n));
    SpentInBoth(bs[n].w, At(d, now, Mirrored(ts, steps), n).w, k, d.config.statePolicy);
  }

  /** No row of the family is both live and active. */
  ghost predicate NoneActive(rows: Grants, family: RefreshFamilyID, now: Time) {
    forall k | k in rows && rows[k].familyID == family && rows[k].expiresAt > now :: rows[k].revokedAt != ZERO_TIME
  }

  lemma DeadInBoth(w: World, durable: State, family: RefreshFamilyID)
    requires Agree(w.store, durable, w.now) && Dead(w, family)
    ensures NoneActive(durable.refresh, family, w.now)
  {
    hide PruneAuthorizations, PruneConsents, PruneCodes, BlankAuthorizations, BlankConsents;
    forall k | k in durable.refresh && durable.refresh[k].familyID == family && durable.refresh[k].expiresAt > w.now
      ensures durable.refresh[k].revokedAt != ZERO_TIME
    {
      assert FamilyLive(durable.refresh, family, w.now);
      assert k in PruneRefresh(durable.refresh, w.now);
      assert k in PruneRefresh(w.store.refresh, w.now);
    }
  }

  /** The answer of the tables to a commit is the answer that the engine's reply is made of. */
  lemma AnswerOfTwins(d: Deployment, now: Time, bs: seq<Server>, ts: seq<Tables>, rs: seq<Outcome>, steps: seq<Step>,
                      i: nat)
    requires now > ZERO_TIME && ValidPolicy(d.config.statePolicy)
    requires DurableRun(d, now, bs, ts, rs, steps) && TextsInOrder(d, bs, steps) && i < |steps|
    requires Committing(bs[i], steps[i]) && !steps[i].fault
    ensures var e, step := At(d, now, Mirrored(ts, steps), i), Mirrored(ts, steps)[i];
            && Committing(e, step) && step == steps[i] && e.pending == bs[i].pending
            && Answer(d, e, step) == rs[i]
  {
    hide DurableStep, TextsInOrder, Agree, View, At, Apply, ServerLegal, CallOf, Engine.MetadataAccepted;
    EngineOnSqlite(d, now, bs, ts, rs, steps);
    CallsOfTwins(d, now, bs, ts, rs, steps, i);
    assert Twins(At(d, now, Mirrored(ts, steps), i), bs[i]);
  }

  /** A refresh token that the engine hands out over the tables names a live, active row in them. */
  lemma RepliesOnSqlite(d: Deployment, now: Time, bs: seq<Server>, ts: seq<Tables>, rs: seq<Outcome>, steps: seq<Step>,
                        i: nat)
    requires now > ZERO_TIME && ValidPolicy(d.config.statePolicy)
    requires DurableRun(d, now, bs, ts, rs, steps) && TextsInOrder(d, bs, steps) && i < |steps|
    requires Committing(bs[i], steps[i]) && !steps[i].fault
    requires ReplyOf(bs[i].pending[steps[i].i].plan, rs[i]).Tokens?
    ensures var l := bs[i].pending[steps[i].i];
            var t, rows := ReplyOf(l.plan, rs[i]).response, View(ts[i + 1]).refresh;
            var k := DigestCredential(t.refreshToken);
            && k in rows && rows[k].Active() && bs[i + 1].w.now < rows[k].expiresAt
            && ResponseFits(d, rows[k], Reading(l.request), t) && MadeBy(l.request, rows[k].clientID)
            && Issue(t, l.request) in bs[i + 1].ledger.issued
  {
    hide DurableStep, TextsInOrder, Agree, View, At, ServerLegal, Answer, ReplyOf, ResponseFits, MadeBy, Told;
    var mirrored := Mirrored(ts, steps);
    AnswerOfTwins(d, now, bs, ts, rs, steps, i);
    EngineOnSqlite(d, now, bs, ts, rs, steps);
    RepliesOfRuns(d, now, mirrored, i);
    assert Twins(At(d, now, mirrored, i + 1), bs[i + 1]);
    var t := ReplyOf(bs[i].pending[steps[i].i].plan, rs[i]).response;
    CommitEndsAt(d, now, mirrored, i);
    LiveInBoth(At(d, now, mirrored, i + 1).w, View(ts[i + 1]), DigestCredential(t.refreshToken));
  }

  lemma CommitEndsAt(d: Deployment, now: Time, steps: seq<Step>, i: nat)
    requires now > ZERO_TIME && ValidPolicy(d.config.statePolicy) && ServerLegal(d, Boot(now), steps)
    requires i < |steps| && Committing(At(d, now, steps, i), steps[i])
    ensures At(d, now, steps, i + 1).w.now <= steps[i].now
  {
    hide ServerInv, At, ServerLegal, After, Run, CallOf, Apply, Record;
    ServerRunStep(d, now, steps, i);
    var e := At(d, now, steps, i);
    AfterWorld(d, e, steps[i]);
    NoCalls(e.w, d.config.statePolicy);
    OneCall(e.w, CallOf(e.pending[steps[i].i].plan, steps[i].pruneAt, steps[i].now), d.config.statePolicy);
    CallEndsBy(e.w, e.pending[steps[i].i].plan, steps[i].pruneAt, steps[i].now, d.config.statePolicy);
  }

  lemma CallEndsBy(w: World, plan: Plan, pruneAt: Time, now: Time, policy: StatePolicy)
    requires !plan.Refuse? && w.now <= pruneAt <= now
    ensures Next(w, CallOf(plan, pruneAt, now), policy).now <= now
  {
    hide Apply, Record;
  }

  lemma LiveInBoth(w: World, durable: State, k: CredentialDigest)
    requires Agree(w.store, durable, w.now) && k in w.store.refresh && w.now < w.store.refresh[k].expiresAt
    ensures k in durable.refresh && durable.refresh[k] == w.store.refresh[k]
  {
    hide PruneAuthorizations, PruneConsents, PruneCodes, BlankAuthorizations, BlankConsents;
    assert FamilyLive(w.store.refresh, w.store.refresh[k].familyID, w.now);
    assert k in PruneRefresh(w.store.refresh, w.now);
  }
}
