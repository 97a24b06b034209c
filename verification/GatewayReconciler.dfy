/** The gateway writers in place: a session over the durable tables, its commits and rollbacks,
    proved step by step against the functions of module GatewayQueue. */
module GatewayReconciler {
  import opened Durable
  import opened GatewayQueue
  import opened Limits
  import opened RoutingSnapshot
  import opened Wrappers

  class Session {
    var durable: Db                 // what any other connection reads
    var work: Db                    // the same rows as this session sees and edits them
    var running: Option<Desired>    // what the gateway routes

    constructor (w: World)
      ensures State() == w && work == durable
    {
      durable, work, running := w.db, w.db, w.running;
    }

    function State(): World
      reads this
    {
      World(durable, running)
    }

    method Commit(c: Commit)
      modifies this`durable
      ensures durable == After(old(durable), work, c)
    {
      if c.Lands() {
        durable := work;
      }
    }

    method Rollback()
      modifies this`work
      ensures work == durable
    {
      work := durable;
    }

    method JobOfKey(db: Db, key: Key) returns (job: Option<JobId>)
      ensures job == FindKey(db, key, 0)
    {
      var id := 0;
      while id < db.nextJob && !(id in db.jobs && db.jobs[id].key == key)
        invariant 0 <= id
        invariant FindKey(db, key, 0) == FindKey(db, key, id)
      {
        id := id + 1;
      }
      job := if id < db.nextJob then Some(id) else None;
    }

    method RouteOfSubscription(a: Authority, subscription: nat) returns (route: Option<nat>)
      ensures route == FindRoute(a, subscription, 0)
    {
      var i := 0;
      while i < |a.routes| && !(a.routes[i].active && a.routes[i].subscription == subscription)
        invariant 0 <= i <= |a.routes|
        invariant FindRoute(a, subscription, 0) == FindRoute(a, subscription, i)
      {
        i := i + 1;
      }
      route := if i < |a.routes| then Some(i) else None;
    }

    /** `enqueue_gateway_reconciliation`, inside the transaction of its caller. */
    method Enqueue(key: Key, subscription: nat, now: int) returns (id: JobId)
      modifies this`work
      ensures (work, id) == Enqueued(old(work), key, subscription, now)
    {
      var existing := JobOfKey(work, key);
      if existing.Some? {
        return existing.value;
      }
      id := work.nextJob;
      work := work.(jobs := work.jobs[id := Job(key, subscription, Pending, 0, RETRY_LIMIT, now, None, None)], nextJob := id + 1);
    }

    /** `classify_first_commit_outcome`, through a session of its own. */
    method ClassifyFirstCommit(key: Key, subscription: nat) returns (outcome: CommitOutcome)
      ensures outcome == ClassifyFirst(durable, key, subscription)
    {
      var job := JobOfKey(durable, key);
      var route := RouteOfSubscription(durable.authority, subscription);
      if job.Some? && route.Some? {
        outcome := LANDED;
      } else if job.None? && route.None? {
        outcome := ABSENT;
      } else {
        outcome := UNKNOWN;
      }
    }

    method Note(subscription: nat)
      modifies this`work
      ensures work == Noted(old(work), subscription)
    {
      if subscription in work.subscriptions {
        work := work.(subscriptions := work.subscriptions[subscription := work.subscriptions[subscription].(error := true)]);
      }
    }

    /** `_record_failure`. */
    method Fail(id: JobId, reason: Reason, now: int, c: Commit) returns (signal: Signal)
      requires id in durable.jobs
      modifies this`durable, this`work
      ensures (State(), signal) == RecordFailure(old(State()), id, reason, now, c)
    {
      hide BackoffMinutes;
      Rollback();
      var j := work.jobs[id];
      var exhausted := j.attempts >= j.maxAttempts;
      work := work.(jobs := work.jobs[id := j.(status := Failed, lockedAt := None, error := Some(reason),
                                              availableAt := now + 60 * BackoffMinutes(j.attempts))]);
      Note(j.subscription);
      if exhausted && j.key.kind.PURCHASE? && j.subscription in work.subscriptions {
        work := work.(subscriptions := work.subscriptions[j.subscription := work.subscriptions[j.subscription].(run := Failed)]);
      }
      Commit(c);
      signal := Signalled(c, Some(Result(id, false, false, !exhausted, Some(reason))));
    }

    /** The handler of a finalization commit that raised. */
    method AfterLostFinalization(id: JobId, env: Env) returns (signal: Signal)
      requires id in durable.jobs
      modifies this`durable, this`work
      ensures (State(), signal) == Classified(old(State()), id, env)
    {
      Rollback();
      if !env.observerWorks {
        return Raised;
      }
      match ClassifyFinalization(durable, id) {
        case LANDED =>
          signal := Returned(Some(Result(id, true, true, false, None)));
        case ABSENT =>
          signal := Fail(id, CommitError, env.later, env.failure);
          if signal.Raised? {
            signal := Fail(id, CommitError, env.later, env.failureAgain);
          }
        case UNKNOWN =>
          var j := work.jobs[id];
          work := work.(jobs := work.jobs[id := j.(status := Running, lockedAt := Some(env.later), error := Some(FinalizationUnknown))]);
          Note(j.subscription);
          Commit(env.mark);
          signal := Signalled(env.mark, Some(Result(id, true, false, false, Some(FinalizationUnknown))));
      }
    }

    /** `_reconcile_claimed_job`: snapshot, render, validate, apply, finalize. */
    method ReconcileClaimedJob(id: JobId, env: Env) returns (signal: Signal)
      requires id in durable.jobs && work == durable
      modifies this
      ensures (State(), signal) == ReconcileClaimed(old(State()), id, env)
    {
      var desired := FullDesiredRoutingSnapshot(work.authority);
      if desired.Failure? {
        signal := Fail(id, SnapshotInvalid, env.later, env.failure);
        return;
      }
      if !env.prepared {
        signal := Fail(id, CandidateInvalid, env.later, env.failure);
        return;
      }
      match env.projection {
        case Killed(left) =>
          running := left;
          return Crashed;
        case NotConfirmed(left) =>
          running := left;
          signal := Fail(id, ApplyNotConfirmed, env.later, env.failure);
          return;
        case Confirmed =>
          running := Some(desired.value);
      }
      var j := work.jobs[id];
      if j.subscription !in work.subscriptions {
        signal := Fail(id, SubscriptionMissing, env.later, env.failure);
        return;
      }
      if j.key.kind.PURCHASE? {
        work := work.(subscriptions := work.subscriptions[j.subscription := Subscription(ACTIVE, ACTIVATED, Succeeded, false)]);
      }
      work := work.(jobs := work.jobs[id := j.(status := Succeeded, lockedAt := None, error := None)]);
      assert work == FinalizedDb(durable, id);
      Commit(env.finalize);
      if env.finalize.Acked? {
        return Returned(Some(Result(id, true, true, false, None)));
      }
      if env.finalize.Crashes() {
        return Crashed;
      }
      signal := AfterLostFinalization(id, env);
    }

    /** `reconcile_gateway_job_in_session`: whatever the row, it becomes the claim of this session. */
    method ReconcileInSession(id: JobId, env: Env) returns (signal: Signal)
      requires id in durable.jobs && work == durable
      modifies this
      ensures (State(), signal) == ClaimAndReconcile(old(State()), id, env)
    {
      var j := work.jobs[id];
      work := work.(jobs := work.jobs[id := j.(status := Running, lockedAt := Some(env.now), attempts := j.attempts + 1)]);
      Commit(env.claim);
      if !env.claim.Acked? {
        return Signalled(env.claim, None);
      }
      signal := ReconcileClaimedJob(id, env);
    }

    /** `reconcile_gateway_job`: the first claimable row by id. */
    method ReconcileGatewayJob(env: Env) returns (signal: Signal)
      requires work == durable
      modifies this
      ensures (State(), signal) == Recover(old(State()), env)
      ensures work == durable
    {
      var id := 0;
      while id < work.nextJob && !(id in work.jobs && Claimable(work.jobs[id], env.now))
        invariant 0 <= id
        invariant FirstClaimable(work, env.now, 0) == FirstClaimable(work, env.now, id)
      {
        id := id + 1;
      }
      if id >= work.nextJob {
        return Returned(None);
      }
      signal := ReconcileInSession(id, env);
      Rollback();
    }

    /** `release_egress`. */
    method ReleaseEgress(subscription: nat, operation: Option<string>, hasGateway: bool, first: Commit, env: Env)
      returns (signal: Signal)
      requires work == durable
      modifies this
      ensures (State(), signal) == Release(old(State()), subscription, operation, hasGateway, first, env)
      ensures work == durable
    {
      if subscription !in work.subscriptions {
        return Raised;
      }
      if subscription !in work.authority.bindings {
        return Returned(None);
      }
      if Blocked(work) {
        return Raised;
      }
      var binding := work.authority.bindings[subscription];
      var key := if operation.Some? && operation.value != "" then Key(RELEASE, operation.value)
        else ReleaseKey(subscription, binding.id);
      work := work.(authority := Released(work.authority, subscription));
      var id := Enqueue(key, subscription, env.now);
      Commit(first);
      if !first.Acked? {
        Rollback();
        return Signalled(first, None);
      }
      if !hasGateway {
        return Returned(None);
      }
      signal := ReconcileInSession(id, env);
      Rollback();
    }

    /** The run store writes through a session of its own; this session then starts afresh. */
    method MarkRun(subscription: nat, run: Status)
      requires subscription in durable.subscriptions
      modifies this`durable, this`work
      ensures durable == WithRun(old(durable), subscription, run) && work == durable
    {
      durable := durable.(subscriptions := durable.subscriptions[subscription := durable.subscriptions[subscription].(run := run)]);
      Rollback();
    }

    method CommitManual(subscription: nat, env: PurchaseEnv)
      requires subscription in durable.subscriptions
      modifies this`durable, this`work
      ensures durable == ManualDb(old(durable), subscription, env)
    {
      Rollback();
      work := work.(subscriptions := work.subscriptions[subscription := work.subscriptions[subscription].(order := PAID, error := true)]);
      Commit(env.business);
      if env.business.Acked? && env.marked {
        MarkRun(subscription, Pending);
      }
    }

    /** `_handle_pre_gateway_failure`: the session is clean before the run is marked FAILED, and the
        business rows come last. */
    method CompensatePurchase(subscription: nat, env: PurchaseEnv) returns (outcome: PurchaseOutcome)
      requires subscription in durable.subscriptions
      modifies this`durable, this`work
      ensures (State(), outcome) == Compensate(old(State()), subscription, env)
    {
      if env.disabled {
        Rollback();
        if env.marked {
          MarkRun(subscription, Failed);
        }
        work := work.(subscriptions := work.subscriptions[subscription :=
          work.subscriptions[subscription].(status := PROVISION_FAILED, order := PAID, error := true)]);
        Commit(env.business);
      } else {
        CommitManual(subscription, env);
      }
      outcome := if env.business.Crashes() then PurchaseCrashed else Compensated;
    }

    /** `_mark_first_commit_unknown`. */
    method ReviewPurchase(subscription: nat, env: PurchaseEnv) returns (outcome: PurchaseOutcome)
      requires subscription in durable.subscriptions
      modifies this`durable, this`work
      ensures (State(), outcome) == MarkFirstUnknown(old(State()), subscription, env)
    {
      CommitManual(subscription, env);
      outcome := if env.business.Acked? then NeedsReview else if env.business.Raises() then PurchaseRaised else PurchaseCrashed;
    }

    /** The rows of phase A and of the route, flushed but not committed; false is an exception. */
    method FlushRoute(r: Request) returns (flushed: bool)
      modifies this`work
      ensures var bound := Bound(old(work), r);
              && flushed == (bound.Some? && Snapshot(EnsureRoute(bound.value.authority, r)).Success?)
              && (flushed ==> work == bound.value.(authority := EnsureRoute(bound.value.authority, r)))
    {
      var bindings := work.authority.bindings;
      if r.subscription in bindings && bindings[r.subscription].egress != r.egress {
        return false;
      }
      if r.subscription in bindings {
        work := work.(authority := work.authority.(bindings := bindings[r.subscription := bindings[r.subscription].(secretRef := Some(r.secretRef))]));
      } else {
        var binding := EgressBinding(work.nextBinding, r.egress, Some(r.secretRef));
        work := work.(authority := work.authority.(bindings := bindings[r.subscription := binding]), nextBinding := work.nextBinding + 1);
      }
      var routes := work.authority.routes;
      var existing := RouteOfSubscription(work.authority, r.subscription);
      if existing.Some? {
        work := work.(authority := work.authority.(routes := routes[existing.value := RouteOf(r)]));
      } else {
        work := work.(authority := work.authority.(routes := routes + [RouteOf(r)]));
      }
      var desired := FullDesiredRoutingSnapshot(work.authority);
      flushed := desired.Success?;
    }

    /** The payment of the order, with its subscription and run rows. */
    method Pay(subscription: nat, c: Commit)
      requires work == durable
      modifies this`durable, this`work
      ensures durable == After(old(durable), GatewayQueue.Started(old(durable), subscription), c)
      ensures c.Acked? ==> work == durable
    {
      var s := if subscription in work.subscriptions then work.subscriptions[subscription].(order := PAID, run := Running)
        else Subscription(PROVISIONING, PAID, Running, false);
      work := work.(subscriptions := work.subscriptions[subscription := s]);
      Commit(c);
    }

    /** A paid purchase (`_confirm_paid_purchase_durable`), after its payment. */
    method ConfirmPaidPurchase(r: Request, env: PurchaseEnv) returns (outcome: PurchaseOutcome)
      requires work == durable
      modifies this
      ensures (State(), outcome) == Purchase(old(State()), r, env)
    {
      hide Snapshot, EnsureRoute, Compensate, AfterFirstCommit, Blocked, PurchaseKey, FindKey;
      Pay(r.subscription, env.paid);
      if !env.paid.Acked? {
        return if env.paid.Raises() then PurchaseRaised else PurchaseCrashed;
      }
      if !env.locked || Blocked(work) || !env.flushed {
        outcome := CompensatePurchase(r.subscription, env);
        return;
      }
      var flushed := FlushRoute(r);
      if !flushed {
        outcome := CompensatePurchase(r.subscription, env);
        return;
      }
      var id := Enqueue(PurchaseKey(r.subscription), r.subscription, env.run.now);
      outcome := FirstCommit(r, id, env);
    }

    method FirstCommit(r: Request, id: JobId, env: PurchaseEnv) returns (outcome: PurchaseOutcome)
      requires id in work.jobs && r.subscription in work.subscriptions && r.subscription in durable.subscriptions
      modifies this
      ensures (State(), outcome) ==
              AfterFirstCommit(World(After(old(durable), old(work), env.first), old(running)), id, r, env)
    {
      Commit(env.first);
      if env.first.Crashes() {
        return PurchaseCrashed;
      }
      if env.first.Acked? {
        var signal := ReconcileInSession(id, env.run);
        return PurchaseSignal(signal);
      }
      if !env.observerWorks {
        outcome := ReviewPurchase(r.subscription, env);
        return;
      }
      var classified := ClassifyFirstCommit(PurchaseKey(r.subscription), r.subscription);
      match classified {
        case LANDED => outcome := InProgress;
        case ABSENT => outcome := CompensatePurchase(r.subscription, env);
        case UNKNOWN => outcome := ReviewPurchase(r.subscription, env);
      }
    }
  }
}
