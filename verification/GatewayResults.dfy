/** What the result of a gateway attempt says about its row, and how often an intent is claimed. */
module GatewayResults {
  import opened Durable
  import opened GatewayQueue
  import opened GatewayReuse
  import opened GatewayTheorems
  import opened Limits
  import opened RoutingSnapshot
  import opened Strings
  import opened Wrappers

  // -------------------------------------------------------------- results

  /** Finalized says that the row has succeeded over an applied snapshot, retryable that it has failed
      with attempts left, and any other returned row waits for review. */
  predicate Tells(r: GatewayQueue.Result, db: Db) {
    && r.id in db.jobs
    && var j := db.jobs[r.id];
    && (r.finalized <==> j.status.Succeeded?)
    && (r.retryable <==> j.status.Failed? && j.attempts < j.maxAttempts)
    && (j.status.Failed? ==> !r.applied && r.reason.Some? && r.reason == j.error)
    && (j.status.Succeeded? ==> r.applied && r.reason.None?)
    && (!j.status.Failed? && !j.status.Succeeded? ==> r.applied && r.reason == Some(FinalizationUnknown) && j.status.Running?)
  }

  ghost predicate Honestly(r: (World, Signal), id: JobId) {
    r.1.Returned? ==> r.1.result.Some? && r.1.result.value.id == id && Tells(r.1.result.value, r.0.db)
  }

  lemma FailureTells(w: World, id: JobId, reason: Reason, now: int, c: Commit)
    requires id in w.db.jobs
    ensures Honestly(RecordFailure(w, id, reason, now, c), id)
  {
    hide BackoffMinutes;
  }

  lemma ClassifiedTells(w: World, id: JobId, env: Env)
    requires id in w.db.jobs
    ensures Honestly(Classified(w, id, env), id)
  {
    hide RecordFailure, Tells;
    FailureTells(w, id, CommitError, env.later, env.failure);
    FailureKeepsRow(w, id, CommitError, env.later, env.failure);
    var first := RecordFailure(w, id, CommitError, env.later, env.failure);
    FailureTells(first.0, id, CommitError, env.later, env.failureAgain);
    LandedTells(w.db, id);
    MarkedTells(w.db, id, env.later);
  }

  lemma LandedTells(db: Db, id: JobId)
    requires id in db.jobs
    ensures ClassifyFinalization(db, id).LANDED? ==> Tells(GatewayQueue.Result(id, true, true, false, None), db)
  {
  }

  lemma MarkedTells(db: Db, id: JobId, now: int)
    requires id in db.jobs
    ensures Tells(GatewayQueue.Result(id, true, false, false, Some(FinalizationUnknown)), MarkedDb(db, id, now))
  {
  }

  lemma FinalizedTells(db: Db, id: JobId)
    requires id in db.jobs && db.jobs[id].subscription in db.subscriptions
    ensures Tells(GatewayQueue.Result(id, true, true, false, None), FinalizedDb(db, id))
    ensures id in FinalizedDb(db, id).jobs
  {
  }

  /** An attempt on a claimed row returns a true result about that row. */
  lemma ResultTellsTheRow(w: World, id: JobId, env: Env)
    requires id in w.db.jobs
    ensures Honestly(ClaimAndReconcile(w, id, env), id)
  {
    hide Snapshot, RecordFailure, Classified, Tells, FinalizedDb;
    var c := w.(db := GatewayQueue.Claimed(w.db, id, env.now));
    FailureTells(c, id, SnapshotInvalid, env.later, env.failure);
    FailureTells(c, id, CandidateInvalid, env.later, env.failure);
    if !env.projection.Confirmed? {
      FailureTells(c.(running := env.projection.left), id, ApplyNotConfirmed, env.later, env.failure);
    } else if Snapshot(w.db.authority).Success? {
      var applied := c.(running := Some(Snapshot(w.db.authority).value));
      FailureTells(applied, id, SubscriptionMissing, env.later, env.failure);
      if w.db.jobs[id].subscription in w.db.subscriptions {
        FinalizedTells(c.db, id);
        ClassifiedTells(applied.(db := After(c.db, FinalizedDb(c.db, id), env.finalize)), id, env);
      }
    }
  }

  /** What the finalizing transaction writes: the row has succeeded and is unlocked, and the subscription
      of a purchase is active, activated and without an error, all at once. */
  lemma FinalizationWrites(db: Db, id: JobId)
    requires id in db.jobs && db.jobs[id].subscription in db.subscriptions
    ensures var j := db.jobs[id];
            && FinalizedDb(db, id).jobs ==
               db.jobs[id := Job(j.key, j.subscription, Succeeded, j.attempts, j.maxAttempts, j.availableAt, None, None)]
            && FinalizedDb(db, id).authority == db.authority
            && FinalizedDb(db, id).subscriptions ==
               if j.key.kind.RELEASE? then db.subscriptions
               else db.subscriptions[j.subscription := Subscription(ACTIVE, ACTIVATED, Succeeded, false)]
  {
  }

  /** What the classifier of a finalization may conclude, on the rows alone: everything finalized
      together, nothing of it, or nothing at all when the rows of a purchase disagree. */
  lemma ClassifierReadsTheRows(db: Db, id: JobId)
    requires id in db.jobs
    ensures var o := ClassifyFinalization(db, id);
            var j := db.jobs[id];
            && (j.key.kind.RELEASE? ==> (o.LANDED? <==> j.status == Succeeded) && (o.ABSENT? <==> j.status != Succeeded))
            && (j.key.kind.PURCHASE? && j.subscription !in db.subscriptions ==> o.UNKNOWN?)
            && (j.key.kind.PURCHASE? && j.subscription in db.subscriptions ==>
                  var s := db.subscriptions[j.subscription];
                  && (o.LANDED? <==> j.status == Succeeded && s.status == ACTIVE && s.order == ACTIVATED && s.run == Succeeded)
                  && (o.ABSENT? <==> j.status != Succeeded && s.status != ACTIVE && s.order != ACTIVATED && s.run != Succeeded))
  {
  }

  /** The attempt fails before the gateway confirms anything. */
  ghost predicate FailsEarly(a: Authority, env: Env) {
    Snapshot(a).Failure? || !env.prepared || env.projection.NotConfirmed?
  }

  /** The last record of a failure: the first commit, or the second when the first one raised. */
  predicate RecordsFailure(s: Signal, env: Env) {
    && (s.Returned? <==> env.failure.Acked? || (env.failure.Raises() && env.failureAgain.Acked?))
    && (s.Raised? <==> env.failure.Raises() && env.failureAgain.Raises())
  }

  /** How the attempt of an unresolved intent ends, by the faults alone. The classification of its
      finalization is exact, so it is never left to review while the observer works. */
  lemma AttemptEndsExactly(w: World, id: JobId, env: Env)
    requires Mine(w.db, id) && w.db.jobs[id].attempts < w.db.jobs[id].maxAttempts
    ensures var s := ClaimAndReconcile(w, id, env).1;
            var a := w.db.authority;
            && (env.claim.Raises() ==> s.Raised?) && (env.claim.Crashes() ==> s.Crashed?)
            && (env.claim.Acked? && FailsEarly(a, env) ==>
                  (s.Returned? <==> env.failure.Acked?) && (s.Raised? <==> env.failure.Raises()))
            && (env.claim.Acked? && !FailsEarly(a, env) && env.projection.Killed? ==> s.Crashed?)
            && (env.claim.Acked? && !FailsEarly(a, env) && env.projection.Confirmed? ==>
                  && (env.finalize.Acked? || (env.finalize == LostLanded && env.observerWorks) ==> Finalized(s))
                  && (env.finalize.Crashes() ==> s.Crashed?)
                  && (env.finalize == LostAbsent && env.observerWorks ==> RecordsFailure(s, env))
                  && (env.finalize.Raises() && !env.observerWorks ==> s.Raised?))
  {
    hide Snapshot, ClassifyFinalization, FinalizedDb, KeysUnique, TablesOk, BackoffMinutes;
    if env.claim.Acked? && !FailsEarly(w.db.authority, env) && env.projection.Confirmed? {
      var c := GatewayQueue.Claimed(w.db, id, env.now);
      ClaimKeeps(w.db, id, env.now);
      FinalizationClassifiedExactly(c, id, env.finalize);
    }
  }

  // ------------------------------------------------------- purchase endings

  /** The rows of the order are flushed: no other endpoint is bound to the subscription, and the tables
      with the new route describe a routing state. */
  ghost predicate Flushes(db: Db, r: Request) {
    && (r.subscription in db.authority.bindings ==> db.authority.bindings[r.subscription].egress == r.egress)
    && Bound(db, r).Some? && Snapshot(EnsureRoute(Bound(db, r).value.authority, r)).Success?
  }

  /** A purchase gets as far as its first commit. */
  ghost predicate TriesFirst(w: World, r: Request, env: PurchaseEnv) {
    env.paid.Acked? && env.locked && !Blocked(w.db) && env.flushed && Flushes(w.db, r)
  }

  lemma FlushesIffProposed(w: World, r: Request, now: int)
    ensures var started := GatewayQueue.Started(w.db, r.subscription);
            && (PurchaseProposed(started, r, now).Some? <==> Flushes(w.db, r))
            && (Blocked(started) <==> Blocked(w.db)) && r.subscription in started.subscriptions
  {
    hide Snapshot, EnsureRoute, FindKey;
    var started := GatewayQueue.Started(w.db, r.subscription);
    assert started.jobs == w.db.jobs && started.authority == w.db.authority;
  }

  /** The answer about a first commit that raised is exact for a new order. */
  lemma FirstAnswerIsExact(db: Db, r: Request, now: int, c: Commit)
    requires Inv(db) && !Blocked(db) && !HasKey(db, PurchaseKey(r.subscription))
    requires r.subscription in db.subscriptions && Unsettled(db.subscriptions[r.subscription])
    requires PurchaseProposed(db, r, now).Some?
    ensures var db' := After(db, PurchaseProposed(db, r, now).value.0, c);
            && (ClassifyFirst(db', PurchaseKey(r.subscription), r.subscription).LANDED? <==> c.Lands())
            && (ClassifyFirst(db', PurchaseKey(r.subscription), r.subscription).ABSENT? <==> !c.Lands())
  {
    hide PurchaseProposed, ClassifyFirst, PurchaseKey, HasKey, Routed, TablesOk, KeysUnique, OneUnresolved, JobOk, Blocked, Unsettled;
    PurchaseProposedKeeps(db, r, now);
    NewOrderIsUnrouted(db, r.subscription);
    RowsBelow(db);
    RowsBelow(PurchaseProposed(db, r, now).value.0);
    FirstCommitClassifiedExactly(db, PurchaseProposed(db, r, now).value.0, PurchaseKey(r.subscription), r.subscription);
    assert (ClassifyFirst(After(db, PurchaseProposed(db, r, now).value.0, c), PurchaseKey(r.subscription), r.subscription).LANDED? <==> c.Lands());
  }

  /** How a new purchase ends, by its faults and the result of its attempt: compensated when nothing of
      it is durable, for review when nobody can tell, and otherwise as its attempt ended: provisioned
      when that finalized the intent, in progress when recovery will go on. */
  lemma PurchaseEndsExactly(w: World, r: Request, env: PurchaseEnv)
    requires WorldInv(w) && !HasKey(w.db, PurchaseKey(r.subscription))
    ensures var o := Purchase(w, r, env).1;
            var tries := TriesFirst(w, r, env);
            var gone := env.paid.Acked? && (!tries || (env.first == LostAbsent && env.observerWorks));
            var unknown := tries && env.first.Raises() && !env.observerWorks;
            && (env.paid.Raises() ==> o == PurchaseRaised) && (env.paid.Crashes() ==> o == PurchaseCrashed)
            && (gone ==> o == if env.business.Crashes() then PurchaseCrashed else Compensated)
            && (unknown ==> o == if env.business.Acked? then NeedsReview
                                 else if env.business.Raises() then PurchaseRaised else PurchaseCrashed)
            && (tries && env.first == LostLanded && env.observerWorks ==> o == InProgress)
            && (tries && env.first.Crashes() ==> o == PurchaseCrashed)
            && (tries && env.first.Acked? ==>
                  var p := PurchaseProposed(GatewayQueue.Started(w.db, r.subscription), r, env.run.now);
                  p.Some? && p.value.1 in p.value.0.jobs
                  && AttemptEnds(o, ClaimAndReconcile(w.(db := p.value.0), p.value.1, env.run).1))
  {
    hide Compensate, MarkFirstUnknown, ClaimAndReconcile, PurchaseProposed, Snapshot, Blocked, ClassifyFirst, Inv, Flushes, PurchaseKey;
    hide HasKey, Unsettled;
    StartedKeeps(w, r.subscription, env.paid);
    FlushesIffProposed(w, r, env.run.now);
    var started := w.(db := GatewayQueue.Started(w.db, r.subscription));
    CompensateSignals(started, r.subscription, env);
    if env.paid.Acked? && TriesFirst(w, r, env) {
      PurchaseProposedKeeps(started.db, r, env.run.now);
      FirstAnswerIsExact(started.db, r, env.run.now, env.first);
      var committed := w.(db := After(started.db, PurchaseProposed(started.db, r, env.run.now).value.0, env.first));
      CompensateSignals(committed, r.subscription, env);
      if env.first.Acked? {
        var id := PurchaseProposed(started.db, r, env.run.now).value.1;
        FinalizedIsApplied(committed, id, env.run);
      }
    }
  }

  lemma FinalizedIsApplied(w: World, id: JobId, env: Env)
    requires id in w.db.jobs
    ensures var s := ClaimAndReconcile(w, id, env).1;
            s.Returned? && s.result.Some? && s.result.value.finalized ==> s.result.value.applied
  {
    hide ClaimAndReconcile;
    ResultTellsTheRow(w, id, env);
  }

  lemma CompensateSignals(w: World, s: nat, env: PurchaseEnv)
    requires s in w.db.subscriptions
    ensures Compensate(w, s, env).1 == if env.business.Crashes() then PurchaseCrashed else Compensated
    ensures MarkFirstUnknown(w, s, env).1 ==
            if env.business.Acked? then NeedsReview else if env.business.Raises() then PurchaseRaised else PurchaseCrashed
  {
  }

  /** What a purchase makes of the end of its attempt. */
  predicate AttemptEnds(o: PurchaseOutcome, s: Signal) {
    && (o.Provisioned? <==> s.Returned? && s.result.Some? && s.result.value.finalized)
    && (o.InProgress? <==> s.Returned? && !(s.result.Some? && s.result.value.finalized))
    && (o.PurchaseRaised? <==> s.Raised?) && (o.PurchaseCrashed? <==> s.Crashed?)
  }

  /** The egress binding of an order: refused exactly when the subscription is bound to another endpoint;
      otherwise for the endpoint of the request, under its credential, and with the id it had or the next
      one. */
  lemma BoundExactly(db: Db, r: Request)
    ensures Bound(db, r).None? <==>
              r.subscription in db.authority.bindings && db.authority.bindings[r.subscription].egress != r.egress
    ensures Bound(db, r).Some? ==>
              var b := Bound(db, r).value;
              && b.authority.routes == db.authority.routes && b.authority.endpoints == db.authority.endpoints
              && b.authority.bindings.Keys == db.authority.bindings.Keys + {r.subscription}
              && (forall s | s in db.authority.bindings && s != r.subscription :: b.authority.bindings[s] == db.authority.bindings[s])
              && b.authority.bindings[r.subscription] ==
                   EgressBinding(if r.subscription in db.authority.bindings then db.authority.bindings[r.subscription].id
                                 else db.nextBinding, r.egress, Some(r.secretRef))
              && b.nextBinding == db.nextBinding + (if r.subscription in db.authority.bindings then 0 else 1)
  {
  }

  /** The rows with which a payment starts the saga: a new subscription is being provisioned without an
      error, an old one keeps its status, and the run is running. */
  lemma PaymentStarts(db: Db, s: nat)
    ensures var db' := GatewayQueue.Started(db, s);
            && db' == db.(subscriptions := db'.subscriptions)
            && db'.subscriptions == db.subscriptions[s :=
                 if s in db.subscriptions then Subscription(db.subscriptions[s].status, PAID, Running, db.subscriptions[s].error)
                 else Subscription(PROVISIONING, PAID, Running, false)]
  {
  }

  /** A purchase that phase A hands to review commits its egress binding with the review, and nothing
      else: no route, no intent, and the gateway is not asked. */
  lemma HoldWrites(w: World, r: Request, paid: Commit, business: Commit)
    ensures var w' := Hold(w, r, paid, business);
            var started := GatewayQueue.Started(w.db, r.subscription);
            && w'.running == w.running && w'.db.jobs == w.db.jobs && w'.db.authority.routes == w.db.authority.routes
            && (!paid.Lands() ==> w' == w)
            && (paid.Lands() && (!paid.Acked? || !business.Lands() || Bound(w.db, r).None?) ==> w'.db == started)
            && (paid.Acked? && business.Lands() && Bound(w.db, r).Some? ==>
                  && w'.db.authority == Bound(w.db, r).value.authority && w'.db.nextBinding == Bound(w.db, r).value.nextBinding
                  && w'.db.subscriptions ==
                       started.subscriptions[r.subscription := started.subscriptions[r.subscription].(order := PAID, error := true)])
  {
  }

  /** What the compensation of a purchase leaves in the row of its subscription. A disabled user: the run
      failed if its status could be written, and then the purchase if that landed. Another: the review
      if it landed, and the PENDING run only after the review was acknowledged. */
  lemma CompensationWrites(w: World, s: nat, env: PurchaseEnv)
    requires s in w.db.subscriptions
    ensures var before := w.db.subscriptions[s];
            var db' := Compensate(w, s, env).0.db;
            && db' == w.db.(subscriptions := db'.subscriptions) && Compensate(w, s, env).0.running == w.running
            && db'.subscriptions == w.db.subscriptions[s := Subscription(
                 if env.disabled && env.business.Lands() then PROVISION_FAILED else before.status,
                 if env.business.Lands() then PAID else before.order,
                 if env.disabled && env.marked then Failed
                 else if !env.disabled && env.marked && env.business.Acked? then Pending else before.run,
                 before.error || env.business.Lands())]
  {
  }

  // ------------------------------------------------------------- attempts

  ghost predicate FiveAtMost(db: Db) {
    forall id | id in db.jobs :: db.jobs[id].maxAttempts == 5
  }

  lemma AttemptKeepsFive(w: World, id: JobId, env: Env)
    requires FiveAtMost(w.db) && id in w.db.jobs
    ensures FiveAtMost(ClaimAndReconcile(w, id, env).0.db)
  {
    hide ReconcileClaimed;
    AttemptTouchesOneRow(w.(db := GatewayQueue.Claimed(w.db, id, env.now)), id, env);
  }

  lemma EnqueuedKeepsFive(db: Db, key: Key, s: nat, now: int)
    requires FiveAtMost(db)
    ensures FiveAtMost(Enqueued(db, key, s, now).0)
  {
  }

  lemma StepKeepsFive(w: World, s: Step)
    requires FiveAtMost(w.db) && WorldInv(w)
    ensures FiveAtMost(Next(w, s).db)
  {
    hide ClaimAndReconcile, Enqueued, FiveAtMost, Snapshot, WorldInv, FindKey;
    match s {
      case PurchaseStep(r, env) => PurchaseKeepsFive(w, r, env);
      case HoldStep(r, paid, business) => SameRowsKeepFive(w.db, Next(w, s).db);
      case ReleaseStep(subscription, operation, hasGateway, first, env) =>
        ReleaseKeepsFive(w, subscription, operation, hasGateway, first, env);
      case RecoverStep(env) =>
        if FirstClaimable(w.db, env.now, 0).Some? {
          AttemptKeepsFive(w, FirstClaimable(w.db, env.now, 0).value, env);
        }
    }
  }

  lemma SameRowsKeepFive(db: Db, db': Db)
    requires FiveAtMost(db) && db'.jobs == db.jobs
    ensures FiveAtMost(db')
  {
  }

  lemma ReleaseKeepsFive(w: World, s: nat, operation: Option<string>, hasGateway: bool, first: Commit, env: Env)
    requires FiveAtMost(w.db) && WorldInv(w)
    ensures FiveAtMost(Release(w, s, operation, hasGateway, first, env).0.db)
  {
    hide ClaimAndReconcile, Enqueued, FiveAtMost, Released, ReleaseKeyOf, WorldInv;
    if s in w.db.authority.bindings {
      var base := w.db.(authority := Released(w.db.authority, s));
      SameRowsKeepFive(w.db, base);
      EnqueuedKeepsFive(base, ReleaseKeyOf(w.db, s, operation), s, env.now);
      var (proposed, id) := ReleaseProposed(w.db, s, operation, env.now);
      ProposedRow(w, s, operation, env.now);
      AttemptKeepsFive(w.(db := proposed), id, env);
    }
  }

  lemma PurchaseKeepsFive(w: World, r: Request, env: PurchaseEnv)
    requires FiveAtMost(w.db)
    ensures FiveAtMost(Purchase(w, r, env).0.db)
  {
    hide ClaimAndReconcile, FiveAtMost, PurchaseProposed, ClassifyFirst, Blocked;
    var started := GatewayQueue.Started(w.db, r.subscription);
    SameRowsKeepFive(w.db, started);
    var s := w.(db := started);
    ProposedKeepsFive(started, r, env.run.now);
    OtherEndingsKeepRows(s, r.subscription, env);
    SameRowsKeepFive(started, Compensate(s, r.subscription, env).0.db);
    var p := PurchaseProposed(started, r, env.run.now);
    if p.Some? {
      var proposed := w.(db := After(started, p.value.0, env.first));
      OtherEndingsKeepRows(proposed, r.subscription, env);
      SameRowsKeepFive(proposed.db, Compensate(proposed, r.subscription, env).0.db);
      SameRowsKeepFive(proposed.db, MarkFirstUnknown(proposed, r.subscription, env).0.db);
      if env.first.Acked? {
        AttemptKeepsFive(proposed, p.value.1, env.run);
      }
    }
  }

  lemma OtherEndingsKeepRows(w: World, s: nat, env: PurchaseEnv)
    requires s in w.db.subscriptions
    ensures Compensate(w, s, env).0.db.jobs == w.db.jobs && MarkFirstUnknown(w, s, env).0.db.jobs == w.db.jobs
  {
  }

  lemma ProposedKeepsFive(db: Db, r: Request, now: int)
    requires FiveAtMost(db)
    ensures var p := PurchaseProposed(db, r, now);
            p.Some? ==> FiveAtMost(p.value.0) && p.value.1 in p.value.0.jobs && p.value.0.subscriptions == db.subscriptions
  {
    hide Snapshot, EnsureRoute, FiveAtMost, Enqueued;
    if Bound(db, r).Some? {
      var base := Bound(db, r).value.(authority := EnsureRoute(Bound(db, r).value.authority, r));
      SameRowsKeepFive(db, base);
      EnqueuedKeepsFive(base, PurchaseKey(r.subscription), r.subscription, now);
      EnqueuedHasRow(base, PurchaseKey(r.subscription), r.subscription, now);
    }
  }

  lemma EnqueuedHasRow(db: Db, key: Key, s: nat, now: int)
    ensures var e := Enqueued(db, key, s, now); e.1 in e.0.jobs && e.0.subscriptions == db.subscriptions
  {
  }

  /** Over every run of new operations from the beginning, no intent is claimed more than five times. */
  lemma ClaimedAtMostFiveTimes(endpoints: map<nat, Endpoint>, steps: seq<Step>)
    requires NewOperations(EmptyWorld(endpoints), steps)
    ensures var db := Exec(EmptyWorld(endpoints), steps).db;
            forall id | id in db.jobs :: db.jobs[id].attempts <= 5
  {
    hide Exec, NewOperations, KeysUnique, OneUnresolved, TablesOk, Snapshot;
    EmptyWorldAgrees(endpoints);
    RunKeepsFive(EmptyWorld(endpoints), steps);
    CommitFirstAgreement(EmptyWorld(endpoints), steps);
  }

  lemma {:induction false} RunKeepsFive(w: World, steps: seq<Step>)
    requires WorldInv(w) && NewOperations(w, steps) && FiveAtMost(w.db)
    ensures FiveAtMost(Exec(w, steps).db)
    decreases |steps|
  {
    hide WorldInv, Next, NewOperation, FiveAtMost, Final;
    if steps != [] {
      NextKeeps(w, steps[0]);
      StepKeepsFive(w, steps[0]);
      RunKeepsFive(Next(w, steps[0]), steps[1..]);
    }
  }
}
