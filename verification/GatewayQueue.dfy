/** The commit-first gateway queue: desired routes and an intent are committed together, the running
    gateway is projected second, and finalization comes third
    (backend/app/infra/gateway_reconciliation.py, backend/app/services.py,
    backend/app/workers/accounting_sync.py).

    Every function maps a durable state and all the answers of the environment to the next state. An
    order and the one subscription that is created for it share an identifier here. */
module GatewayQueue {
  import opened Durable
  import opened Limits
  import opened RoutingSnapshot
  import opened Strings
  import opened Wrappers

  type JobId = nat

  datatype Kind = PURCHASE | RELEASE

  datatype Status = Pending | Running | Succeeded | Failed

  /** `dedupe_key`, unique over the job table. */
  datatype Key = Key(kind: Kind, operationId: string)

  datatype Reason = SnapshotInvalid | CandidateInvalid | ApplyNotConfirmed | SubscriptionMissing | CommitError | FinalizationUnknown

  datatype Job = Job(
    key: Key,
    subscription: nat,
    status: Status,
    attempts: nat,
    maxAttempts: nat,
    availableAt: int,
    lockedAt: Option<int>,
    error: Option<Reason>)

  datatype SubscriptionStatus = PROVISIONING | PROVISION_FAILED | ACTIVE

  datatype OrderStatus = PAID | ACTIVATED

  /** A paid subscription with the status of its order and of its provision run. */
  datatype Subscription = Subscription(status: SubscriptionStatus, order: OrderStatus, run: Status, error: bool)

  /** `nextJob` and `nextBinding` are the next keys MySQL would assign. */
  datatype Db = Db(
    authority: Authority,
    jobs: map<JobId, Job>,
    nextJob: JobId,
    nextBinding: nat,
    subscriptions: map<nat, Subscription>)

  /** `running` is what the gateway routes; None when nobody can tell. */
  datatype World = World(db: Db, running: Option<Desired>)

  predicate Unresolved(j: Job) {
    !j.status.Succeeded?
  }

  /** `assert_no_unresolved_gateway_mutation` raises. */
  predicate Blocked(db: Db) {
    exists id | id in db.jobs :: Unresolved(db.jobs[id])
  }

  // ---------------------------------------------------------------- enqueue

  const RETRY_LIMIT := 5
  const STALE_AFTER := 900

  function PurchaseKey(subscription: nat): Key {
    Key(PURCHASE, Decimal(subscription))
  }

  function ReleaseKey(subscription: nat, binding: nat): Key {
    Key(RELEASE, Decimal(subscription) + ":" + Decimal(binding))
  }

  /** The job of a key, which the unique index makes the only one. */
  function FindKey(db: Db, key: Key, from: JobId): (r: Option<JobId>)
    ensures r.Some? ==> from <= r.value < db.nextJob && r.value in db.jobs && db.jobs[r.value].key == key
    ensures r.None? ==> forall id | id in db.jobs && from <= id < db.nextJob :: db.jobs[id].key != key
    decreases db.nextJob - from
  {
    if from >= db.nextJob then None
    else if from in db.jobs && db.jobs[from].key == key then Some(from)
    else FindKey(db, key, from + 1)
  }

  /** `enqueue_gateway_reconciliation`: the existing row of the key, whatever its status, or a new one. */
  function Enqueued(db: Db, key: Key, subscription: nat, now: int): (r: (Db, JobId)) {
    var existing := FindKey(db, key, 0);
    if existing.Some? then (db, existing.value)
    else
      (db.(jobs := db.jobs[db.nextJob := Job(key, subscription, Pending, 0, RETRY_LIMIT, now, None, None)],
           nextJob := db.nextJob + 1),
       db.nextJob)
  }

  // ------------------------------------------------------------------ claim

  /** The `where` clause of `_claim_job`: a stale RUNNING row is claimed whatever its diagnostic. */
  predicate Claimable(j: Job, now: int) {
    && (|| j.status in {Pending, Failed}
        || (j.status.Running? && j.lockedAt.Some? && j.lockedAt.value < now - STALE_AFTER))
    && j.availableAt <= now
    && j.attempts < j.maxAttempts
  }

  function FirstClaimable(db: Db, now: int, from: JobId): (r: Option<JobId>)
    ensures r.Some? ==> from <= r.value < db.nextJob && r.value in db.jobs && Claimable(db.jobs[r.value], now)
    ensures forall id | id in db.jobs && from <= id < (if r.Some? then r.value else db.nextJob) ::
              !Claimable(db.jobs[id], now)
    decreases db.nextJob - from
  {
    if from >= db.nextJob then None
    else if from in db.jobs && Claimable(db.jobs[from], now) then Some(from)
    else FirstClaimable(db, now, from + 1)
  }

  function Claimed(db: Db, id: JobId, now: int): Db
    requires id in db.jobs
  {
    var j := db.jobs[id];
    db.(jobs := db.jobs[id := j.(status := Running, lockedAt := Some(now), attempts := j.attempts + 1)])
  }

  // ------------------------------------------------- finishing a claimed row

  function Noted(db: Db, subscription: nat): Db {
    if subscription !in db.subscriptions then db
    else db.(subscriptions := db.subscriptions[subscription := db.subscriptions[subscription].(error := true)])
  }

  /** The rows `_record_failure` writes: an exhausted purchase also fails its provision run. */
  function FailedDb(db: Db, id: JobId, reason: Reason, now: int): Db
    requires id in db.jobs
  {
    var j := db.jobs[id];
    var row := j.(status := Failed, lockedAt := None, error := Some(reason),
                  availableAt := now + 60 * BackoffMinutes(j.attempts));
    var noted := Noted(db.(jobs := db.jobs[id := row]), j.subscription);
    if j.attempts >= j.maxAttempts && j.key.kind.PURCHASE? && j.subscription in noted.subscriptions then
      noted.(subscriptions := noted.subscriptions[j.subscription := noted.subscriptions[j.subscription].(run := Failed)])
    else noted
  }

  /** The rows `_finalize` writes. */
  function FinalizedDb(db: Db, id: JobId): Db
    requires id in db.jobs && db.jobs[id].subscription in db.subscriptions
  {
    var j := db.jobs[id];
    var done := db.(jobs := db.jobs[id := j.(status := Succeeded, lockedAt := None, error := None)]);
    if j.key.kind.RELEASE? then done
    else done.(subscriptions := db.subscriptions[j.subscription := Subscription(ACTIVE, ACTIVATED, Succeeded, false)])
  }

  /** The rows `_mark_finalization_unknown` writes. */
  function MarkedDb(db: Db, id: JobId, now: int): Db
    requires id in db.jobs
  {
    var j := db.jobs[id];
    Noted(db.(jobs := db.jobs[id := j.(status := Running, lockedAt := Some(now), error := Some(FinalizationUnknown))]),
          j.subscription)
  }

  // --------------------------------------------------------- classification

  datatype CommitOutcome = LANDED | ABSENT | UNKNOWN

  /** The unreleased enabled route of a subscription. */
  function FindRoute(a: Authority, subscription: nat, from: nat): (r: Option<nat>)
    requires from <= |a.routes|
    ensures r.Some? ==> from <= r.value < |a.routes| && a.routes[r.value].active && a.routes[r.value].subscription == subscription
    ensures r.None? ==> forall i | from <= i < |a.routes| && a.routes[i].active :: a.routes[i].subscription != subscription
    decreases |a.routes| - from
  {
    if from == |a.routes| then None
    else if a.routes[from].active && a.routes[from].subscription == subscription then Some(from)
    else FindRoute(a, subscription, from + 1)
  }

  /** `classify_first_commit_outcome`: the intent row and the active route, both or neither. */
  function ClassifyFirst(db: Db, key: Key, subscription: nat): CommitOutcome {
    var job := FindKey(db, key, 0);
    var route := FindRoute(db.authority, subscription, 0);
    if job.Some? && route.Some? then LANDED else if job.None? && route.None? then ABSENT else UNKNOWN
  }

  /** `classify_finalization_outcome`: all four statuses of a purchase, or the job of a release. */
  function ClassifyFinalization(db: Db, id: JobId): CommitOutcome {
    if id !in db.jobs then UNKNOWN
    else
      var done := db.jobs[id].status.Succeeded?;
      if db.jobs[id].key.kind.RELEASE? then (if done then LANDED else ABSENT)
      else if db.jobs[id].subscription !in db.subscriptions then UNKNOWN
      else
        var s := db.subscriptions[db.jobs[id].subscription];
        if done && s.status.ACTIVE? && s.order.ACTIVATED? && s.run.Succeeded? then LANDED
        else if !done && !s.status.ACTIVE? && !s.order.ACTIVATED? && !s.run.Succeeded? then ABSENT
        else UNKNOWN
  }

  /** A row that failed at `now` is claimed again from then on when its delay is over, while attempts
      remain, and never before. */
  lemma FailedIsRetriedFrom(db: Db, id: JobId, reason: Reason, now: int, at: int)
    requires id in db.jobs
    ensures var a := db.jobs[id].attempts;
            && id in FailedDb(db, id, reason, now).jobs
            && (Claimable(FailedDb(db, id, reason, now).jobs[id], at) <==>
                at >= now + RetryDelay(a) && a < db.jobs[id].maxAttempts)
  {
    BackoffIsDoubledAndCapped(db.jobs[id].attempts);
  }

  /** A claim is taken over from a dead worker after more than fifteen minutes, whatever its diagnostic. */
  lemma ClaimIsTakenOverAfter(db: Db, id: JobId, now: int, at: int)
    requires id in db.jobs && db.jobs[id].availableAt <= now <= at
    ensures Claimable(Claimed(db, id, now).jobs[id], at) <==>
            at > now + 15 * 60 && db.jobs[id].attempts + 1 < db.jobs[id].maxAttempts
  {
  }

  /** A row marked for review is taken over like a claim of that moment. */
  lemma MarkedIsTakenOverAfter(db: Db, id: JobId, now: int, at: int)
    requires id in db.jobs && db.jobs[id].availableAt <= now <= at
    ensures id in MarkedDb(db, id, now).jobs
    ensures Claimable(MarkedDb(db, id, now).jobs[id], at) <==> at > now + 15 * 60 && db.jobs[id].attempts < db.jobs[id].maxAttempts
  {
  }

  /** A failure unlocks its row with the reason, notes the error of the subscription, and fails the run of
      its purchase exactly when no attempt is left; nothing else of the tables changes. */
  lemma ExhaustedFailsItsRun(db: Db, id: JobId, reason: Reason, now: int)
    requires id in db.jobs && db.jobs[id].subscription in db.subscriptions
    ensures var j := db.jobs[id];
            var before := db.subscriptions[j.subscription];
            FailedDb(db, id, reason, now).subscriptions ==
            db.subscriptions[j.subscription := before.(
              error := true,
              run := if j.key.kind.PURCHASE? && j.attempts >= j.maxAttempts then Failed else before.run)]
    ensures var j := db.jobs[id];
            FailedDb(db, id, reason, now).jobs ==
            db.jobs[id := Job(j.key, j.subscription, Failed, j.attempts, j.maxAttempts, now + RetryDelay(j.attempts), None, Some(reason))]
  {
    BackoffIsDoubledAndCapped(db.jobs[id].attempts);
  }

  // ---------------------------------------------------------- one projection

  /** What the gateway does with a rendered and validated candidate. A provider that confirms runs the
      candidate (proved of the Xray provider in module GatewayServing); any other ending leaves any
      routes behind. */
  datatype Projection =
    | Confirmed
    | NotConfirmed(left: Option<Desired>)  // raised, or returned without confirming
    | Killed(left: Option<Desired>)

  datatype Env = Env(
    now: int,
    later: int,
    claim: Commit,
    prepared: bool,
    projection: Projection,
    finalize: Commit,
    observerWorks: bool,
    failure: Commit,
    failureAgain: Commit,
    mark: Commit)

  datatype Result = Result(id: JobId, applied: bool, finalized: bool, retryable: bool, reason: Option<Reason>)

  datatype Signal = Returned(result: Option<Result>) | Raised | Crashed

  function Signalled(commit: Commit, result: Option<Result>): Signal {
    if commit.Acked? then Returned(result) else if commit.Raises() then Raised else Crashed
  }

  function RecordFailure(w: World, id: JobId, reason: Reason, now: int, commit: Commit): (World, Signal)
    requires id in w.db.jobs
  {
    var exhausted := w.db.jobs[id].attempts >= w.db.jobs[id].maxAttempts;
    (w.(db := After(w.db, FailedDb(w.db, id, reason, now), commit)),
     Signalled(commit, Some(Result(id, false, false, !exhausted, Some(reason)))))
  }

  /** The branches on the classified outcome of a finalization whose commit raised. */
  function Classified(w: World, id: JobId, env: Env): (World, Signal)
    requires id in w.db.jobs
  {
    if !env.observerWorks then (w, Raised)
    else
      match ClassifyFinalization(w.db, id)
      case LANDED => (w, Returned(Some(Result(id, true, true, false, None))))
      case ABSENT =>
        var first := RecordFailure(w, id, CommitError, env.later, env.failure);
        if first.1.Raised? then RecordFailure(first.0, id, CommitError, env.later, env.failureAgain) else first
      case UNKNOWN =>
        (w.(db := After(w.db, MarkedDb(w.db, id, env.later), env.mark)),
         Signalled(env.mark, Some(Result(id, true, false, false, Some(FinalizationUnknown)))))
  }

  /** `_reconcile_claimed_job`: a fresh snapshot of the committed state, projected, then finalized. */
  function ReconcileClaimed(w: World, id: JobId, env: Env): (World, Signal)
    requires id in w.db.jobs
  {
    var snapshot := Snapshot(w.db.authority);
    if snapshot.Failure? then RecordFailure(w, id, SnapshotInvalid, env.later, env.failure)
    else if !env.prepared then RecordFailure(w, id, CandidateInvalid, env.later, env.failure)
    else
      match env.projection
      case Killed(left) => (w.(running := left), Crashed)
      case NotConfirmed(left) =>
        RecordFailure(w.(running := left), id, ApplyNotConfirmed, env.later, env.failure)
      case Confirmed =>
        var applied := w.(running := Some(snapshot.value));
        if w.db.jobs[id].subscription !in w.db.subscriptions then
          RecordFailure(applied, id, SubscriptionMissing, env.later, env.failure)
        else
          var shown := applied.(db := After(w.db, FinalizedDb(w.db, id), env.finalize));
          if env.finalize.Acked? then (shown, Returned(Some(Result(id, true, true, false, None))))
          else if env.finalize.Crashes() then (shown, Crashed)
          else Classified(shown, id, env)
  }

  /** A claim of one row, committed, and its reconciliation. */
  function ClaimAndReconcile(w: World, id: JobId, env: Env): (World, Signal)
    requires id in w.db.jobs
  {
    var claimed := w.(db := After(w.db, Claimed(w.db, id, env.now), env.claim));
    if env.claim.Acked? then ReconcileClaimed(claimed, id, env) else (claimed, Signalled(env.claim, None))
  }

  /** `reconcile_gateway_job`. */
  function Recover(w: World, env: Env): (World, Signal) {
    var first := FirstClaimable(w.db, env.now, 0);
    if first.None? then (w, Returned(None)) else ClaimAndReconcile(w, first.value, env)
  }

  // ---------------------------------------------------------------- release

  /** `release_egress` on the rows: the binding released, the route disabled. */
  function Released(a: Authority, subscription: nat): Authority {
    a.(bindings := a.bindings - {subscription},
       routes := seq(|a.routes|, i requires 0 <= i < |a.routes| =>
                   if a.routes[i].subscription == subscription then a.routes[i].(active := false) else a.routes[i]))
  }

  /** `operation_id or f"{subscription_id}:{binding.id}"`. */
  function ReleaseKeyOf(db: Db, subscription: nat, operation: Option<string>): Key
    requires subscription in db.authority.bindings
  {
    if operation.Some? && operation.value != "" then Key(RELEASE, operation.value)
    else ReleaseKey(subscription, db.authority.bindings[subscription].id)
  }

  function ReleaseProposed(db: Db, subscription: nat, operation: Option<string>, now: int): (Db, JobId)
    requires subscription in db.authority.bindings
  {
    Enqueued(db.(authority := Released(db.authority, subscription)), ReleaseKeyOf(db, subscription, operation), subscription, now)
  }

  /** `release_egress`; `hasGateway` says that a provider was passed. */
  function Release(
    w: World, subscription: nat, operation: Option<string>, hasGateway: bool, first: Commit, env: Env
  ): (World, Signal)
  {
    if subscription !in w.db.subscriptions then (w, Raised)
    else if subscription !in w.db.authority.bindings then (w, Returned(None))
    else if Blocked(w.db) then (w, Raised)
    else
      var (proposed, id) := ReleaseProposed(w.db, subscription, operation, env.now);
      var committed := w.(db := After(w.db, proposed, first));
      if !first.Acked? then (committed, Signalled(first, None))
      else if !hasGateway then (committed, Returned(None))
      else ClaimAndReconcile(committed, id, env)
  }

  // --------------------------------------------------------------- purchase

  datatype Request = Request(subscription: nat, egress: nat, principal: string, secretRef: string)

  datatype PurchaseEnv = PurchaseEnv(
    paid: Commit,         // payment, subscription row and run row
    locked: bool,         // GET_LOCK returned 1
    flushed: bool,        // nothing raised while the rows were flushed
    first: Commit,
    observerWorks: bool,
    disabled: bool,       // the compensation could disable the accounting user
    business: Commit,     // the business rows of a failed or manual purchase
    marked: bool,         // the run store could record the status of the run
    run: Env)

  datatype PurchaseOutcome =
    | Provisioned    // SUCCEEDED
    | InProgress     // RUNNING: recovery will finish
    | Compensated    // the accounting user was compensated or left for manual review
    | NeedsReview    // PENDING_MANUAL: the first commit could not be classified
    | PurchaseRaised
    | PurchaseCrashed

  /** The payment, the subscription and the run are durable before the saga starts. */
  function Started(db: Db, subscription: nat): Db {
    var s := if subscription in db.subscriptions then db.subscriptions[subscription].(order := PAID, run := Running)
             else Subscription(PROVISIONING, PAID, Running, false);
    db.(subscriptions := db.subscriptions[subscription := s])
  }

  /** The unreleased egress binding of phase A; None when another endpoint is bound already. */
  function Bound(db: Db, r: Request): Option<Db> {
    var a := db.authority;
    if r.subscription !in a.bindings then
      Some(db.(authority := a.(bindings := a.bindings[r.subscription := EgressBinding(db.nextBinding, r.egress, Some(r.secretRef))]),
               nextBinding := db.nextBinding + 1))
    else if a.bindings[r.subscription].egress != r.egress then None
    else
      Some(db.(authority := a.(bindings := a.bindings[r.subscription := a.bindings[r.subscription].(secretRef := Some(r.secretRef))])))
  }

  function RouteOf(r: Request): Route {
    Route(r.subscription, r.egress, r.principal, "egress-" + Decimal(r.egress), true)
  }

  /** `ensure_gateway_route_binding`: rewrite the unreleased route, or add one. */
  function EnsureRoute(a: Authority, r: Request): Authority {
    var i := FindRoute(a, r.subscription, 0);
    if i.Some? then a.(routes := a.routes[i.value := RouteOf(r)]) else a.(routes := a.routes + [RouteOf(r)])
  }

  /** The proposed first commit; None is anything that raises before it. */
  function PurchaseProposed(db: Db, r: Request, now: int): Option<(Db, JobId)> {
    var bound := Bound(db, r);
    if bound.None? then None
    else
      var a := EnsureRoute(bound.value.authority, r);
      if Snapshot(a).Failure? then None
      else Some(Enqueued(bound.value.(authority := a), PurchaseKey(r.subscription), r.subscription, now))
  }

  /** `mark_provision_pending` and `mark_provision_failed`. */
  function Manual(db: Db, subscription: nat): Db
    requires subscription in db.subscriptions
  {
    db.(subscriptions := db.subscriptions[subscription := db.subscriptions[subscription].(order := PAID, error := true)])
  }

  function FailedPurchase(db: Db, subscription: nat): Db
    requires subscription in db.subscriptions
  {
    var s := db.subscriptions[subscription];
    db.(subscriptions := db.subscriptions[subscription := s.(status := PROVISION_FAILED, order := PAID, error := true)])
  }

  /** The status of the provision run, through the session of the run store. */
  function WithRun(db: Db, subscription: nat, run: Status): Db
    requires subscription in db.subscriptions
  {
    db.(subscriptions := db.subscriptions[subscription := db.subscriptions[subscription].(run := run)])
  }

  /** Business rows for manual review first, then the best-effort PENDING status of the run. */
  function ManualDb(db: Db, subscription: nat, env: PurchaseEnv): Db
    requires subscription in db.subscriptions
  {
    var manual := After(db, Manual(db, subscription), env.business);
    if env.business.Acked? && env.marked then WithRun(manual, subscription, Pending) else manual
  }

  /** `_handle_pre_gateway_failure`: a compensated user fails the run and then the purchase, an
      uncompensated one leaves both for manual review. */
  function Compensate(w: World, subscription: nat, env: PurchaseEnv): (World, PurchaseOutcome)
    requires subscription in w.db.subscriptions
  {
    var failed := if env.marked then WithRun(w.db, subscription, Failed) else w.db;
    var db := if env.disabled then After(failed, FailedPurchase(failed, subscription), env.business)
              else ManualDb(w.db, subscription, env);
    (w.(db := db), if env.business.Crashes() then PurchaseCrashed else Compensated)
  }

  /** `_mark_first_commit_unknown`. */
  function MarkFirstUnknown(w: World, subscription: nat, env: PurchaseEnv): (World, PurchaseOutcome)
    requires subscription in w.db.subscriptions
  {
    (w.(db := ManualDb(w.db, subscription, env)),
     if env.business.Acked? then NeedsReview else if env.business.Raises() then PurchaseRaised else PurchaseCrashed)
  }

  function PurchaseSignal(s: Signal): PurchaseOutcome {
    match s
    case Raised => PurchaseRaised
    case Crashed => PurchaseCrashed
    case Returned(result) =>
      if result.Some? && result.value.applied && result.value.finalized then Provisioned else InProgress
  }

  /** After the first commit: reconcile in the same session, or find out what became of it. */
  function AfterFirstCommit(w: World, id: JobId, r: Request, env: PurchaseEnv): (World, PurchaseOutcome)
    requires r.subscription in w.db.subscriptions
    requires env.first.Acked? ==> id in w.db.jobs
  {
    if env.first.Crashes() then (w, PurchaseCrashed)
    else if env.first.Acked? then
      var s := ClaimAndReconcile(w, id, env.run);
      (s.0, PurchaseSignal(s.1))
    else if !env.observerWorks then MarkFirstUnknown(w, r.subscription, env)
    else
      match ClassifyFirst(w.db, PurchaseKey(r.subscription), r.subscription)
      case LANDED => (w, InProgress)
      case ABSENT => Compensate(w, r.subscription, env)
      case UNKNOWN => MarkFirstUnknown(w, r.subscription, env)
  }

  /** A paid purchase from its payment to its outcome (`_confirm_paid_purchase_durable`). */
  function Purchase(w: World, r: Request, env: PurchaseEnv): (World, PurchaseOutcome) {
    var started := w.(db := After(w.db, Started(w.db, r.subscription), env.paid));
    if !env.paid.Acked? then (started, if env.paid.Raises() then PurchaseRaised else PurchaseCrashed)
    else if !env.locked || Blocked(started.db) || !env.flushed then Compensate(started, r.subscription, env)
    else
      var proposed := PurchaseProposed(started.db, r, env.run.now);
      if proposed.None? then Compensate(started, r.subscription, env)
      else
        var (db', id) := proposed.value;
        AfterFirstCommit(started.(db := After(started.db, db', env.first)), id, r, env)
  }

  /** A purchase that phase A hands to manual review commits the egress binding it made, without a
      route and without the lock. */
  function Hold(w: World, r: Request, paid: Commit, business: Commit): World {
    var started := w.(db := After(w.db, Started(w.db, r.subscription), paid));
    var bound := Bound(started.db, r);
    if !paid.Acked? || bound.None? then started
    else started.(db := After(started.db, Manual(bound.value, r.subscription), business))
  }

  // ------------------------------------------------------------- whole runs

  datatype Step =
    | PurchaseStep(request: Request, purchase: PurchaseEnv)
    | HoldStep(request: Request, paid: Commit, business: Commit)
    | ReleaseStep(subscription: nat, operation: Option<string>, hasGateway: bool, first: Commit, release: Env)
    | RecoverStep(recover: Env)

  function Next(w: World, s: Step): World {
    match s
    case PurchaseStep(r, env) => Purchase(w, r, env).0
    case HoldStep(r, paid, business) => Hold(w, r, paid, business)
    case ReleaseStep(subscription, operation, hasGateway, first, env) =>
      Release(w, subscription, operation, hasGateway, first, env).0
    case RecoverStep(env) => Recover(w, env).0
  }

  function Exec(w: World, steps: seq<Step>): World
    decreases |steps|
  {
    if steps == [] then w else Exec(Next(w, steps[0]), steps[1..])
  }

  /** An operation id that no default release key can have. */
  ghost predicate Custom(operation: string) {
    forall subscription: nat, binding: nat :: ReleaseKey(subscription, binding) != Key(RELEASE, operation)
  }

  /** The step is a new operation: it does not confirm an order whose purchase intent is already in the
      queue, and it does not release under an operation id that is, or that names another release. */
  ghost predicate NewOperation(db: Db, s: Step) {
    && (s.PurchaseStep? || s.HoldStep? ==> FindKey(db, PurchaseKey(s.request.subscription), 0).None?)
    && (s.ReleaseStep? && s.subscription in db.authority.bindings ==>
          var key := ReleaseKeyOf(db, s.subscription, s.operation);
          || key == ReleaseKey(s.subscription, db.authority.bindings[s.subscription].id)
          || (Custom(key.operationId) && FindKey(db, key, 0).None?))
  }

  ghost predicate NewOperations(w: World, steps: seq<Step>)
    decreases |steps|
  {
    steps == [] || (NewOperation(w.db, steps[0]) && NewOperations(Next(w, steps[0]), steps[1..]))
  }
}
