/** The usage ledger and the period queue of one subscription
    (backend/app/workers/accounting_sync.py, backend/app/api/admin.py). Rows of one table are kept in
    id order; time counts seconds. */
module UsageLedger {
  import opened Wrappers

  datatype Sample = Sample(counter: nat, at: int)

  datatype Reason = BOOTSTRAP | NORMAL | COUNTER_RESET

  datatype Delta = Delta(period: nat, from: Option<nat>, to: nat, bytes: nat, reason: Reason)

  datatype PeriodStatus = QUEUED | ACTIVE | CLOSED

  datatype Period = Period(status: PeriodStatus, end: int, quota: int, used: int)

  datatype SubscriptionStatus = PROVISIONING | PROVISION_FAILED | RUNNING | GRACE | EXPIRED

  /** `current` is the row of `current_period_id`, `expireAt` is `service_expire_at`. RUNNING stands
      for the subscription status ACTIVE. */
  datatype Ledger = Ledger(
    status: SubscriptionStatus,
    expireAt: int,
    current: nat,
    periods: seq<Period>,
    samples: seq<Sample>,
    deltas: seq<Delta>,
    alerts: set<(nat, int)>)

  const DAY := 86400
  const ROLLOVER := 30 * DAY
  const THRESHOLDS := [70, 90, 100]

  /** `prepare_purchase`: a first period, current from the start. */
  function Prepared(now: int, duration: nat, quota: int): Ledger {
    var end := now + duration * DAY;
    Ledger(PROVISIONING, end, 0, [Period(ACTIVE, end, quota, 0)], [], [], {})
  }

  // ----------------------------------------------------------- the samples

  /** The latest sample: by time, and by id among equal times. */
  function Latest(samples: seq<Sample>): (r: Option<nat>)
    ensures r.None? <==> samples == []
    ensures r.Some? ==> r.value < |samples|
    ensures r.Some? ==> forall i | 0 <= i < |samples| ::
                          samples[i].at < samples[r.value].at || (samples[i].at == samples[r.value].at && i <= r.value)
  {
    if samples == [] then None
    else
      var last := |samples| - 1;
      var before := Latest(samples[..last]);
      if before.Some? && samples[before.value].at > samples[last].at then before else Some(last)
  }

  function DeltaBytes(previous: Option<nat>, counter: nat): nat {
    if previous.Some? && counter >= previous.value then counter - previous.value else counter
  }

  function DeltaReason(previous: Option<nat>, counter: nat): Reason {
    if previous.None? then BOOTSTRAP else if counter >= previous.value then NORMAL else COUNTER_RESET
  }

  function PreviousCounter(samples: seq<Sample>): Option<nat> {
    var latest := Latest(samples);
    if latest.None? then None else Some(samples[latest.value].counter)
  }

  // --------------------------------------------------------------- one sync

  /** The sample, its delta, and the cached total of the current period. */
  function Recorded(l: Ledger, counter: nat, now: int): Ledger
    requires l.current < |l.periods|
  {
    var previous := PreviousCounter(l.samples);
    var bytes := DeltaBytes(previous, counter);
    var p := l.periods[l.current];
    l.(samples := l.samples + [Sample(counter, now)],
       deltas := l.deltas + [Delta(l.current, Latest(l.samples), |l.samples|, bytes, DeltaReason(previous, counter))],
       periods := l.periods[l.current := p.(used := p.used + bytes)])
  }

  /** A threshold is reached when the integer percentage is. */
  predicate Reached(p: Period, threshold: int) {
    p.quota > 0 && p.used * 100 / p.quota >= threshold
  }

  /** `record_usage_alerts`: one row per period and threshold, never twice. */
  function Alerted(l: Ledger): Ledger
    requires l.current < |l.periods|
  {
    l.(alerts := l.alerts + set t | t in THRESHOLDS && Reached(l.periods[l.current], t) :: (l.current, t))
  }

  /** The queued row with the least id. */
  function FirstQueued(periods: seq<Period>, from: nat): (r: Option<nat>)
    requires from <= |periods|
    ensures r.Some? ==> from <= r.value < |periods| && periods[r.value].status.QUEUED?
    ensures forall i | from <= i < (if r.Some? then r.value else |periods|) :: !periods[i].status.QUEUED?
    decreases |periods| - from
  {
    if from == |periods| then None
    else if periods[from].status.QUEUED? then Some(from)
    else FirstQueued(periods, from + 1)
  }

  predicate Finished(p: Period, now: int) {
    p.used >= p.quota || now >= p.end
  }

  /** `apply_expiry_policy`; the second component asks for a reconcile. */
  function Policed(l: Ledger, now: int, grace: nat): (Ledger, bool)
    requires l.current < |l.periods|
  {
    var p := l.periods[l.current];
    if l.status.RUNNING? && Finished(p, now) then
      var queued := FirstQueued(l.periods, 0);
      if queued.Some? then
        var n := queued.value;
        var closed := l.periods[l.current := p.(status := CLOSED)];
        (l.(periods := closed[n := closed[n].(status := ACTIVE, end := now + ROLLOVER)],
            current := n, expireAt := now + ROLLOVER),
         true)
      else
        (l.(periods := l.periods[l.current := p.(status := CLOSED)], status := GRACE, expireAt := now + grace), true)
    else if l.status.RUNNING? && now >= l.expireAt then (l.(status := GRACE, expireAt := l.expireAt + grace), true)
    else if l.status.GRACE? && now >= l.expireAt then (l.(status := EXPIRED), false)
    else (l, false)
  }

  /** `sync_subscription_usage`; a negative counter of the provider counts as zero. */
  function Sync(l: Ledger, reported: int, now: int, grace: nat): (Ledger, bool)
    requires l.current < |l.periods|
  {
    Policed(Alerted(Recorded(l, if reported < 0 then 0 else reported, now)), now, grace)
  }

  // -------------------------------------------------------- the other steps

  /** `enqueue_subscription`: a renewal waits behind everything that is queued already. */
  function Enqueued(l: Ledger, now: int, duration: nat, quota: int): Ledger {
    l.(periods := l.periods + [Period(QUEUED, now + duration * DAY, quota, 0)])
  }

  /** `activate_subscription`, which only ends a provisioning. */
  function Activated(l: Ledger): Ledger {
    if l.status.PROVISIONING? || l.status.PROVISION_FAILED? then l.(status := RUNNING) else l
  }

  /** `mark_provision_failed`: a failed provisioning, or one whose activation had landed without its
      acknowledgement, so that the service was running already. */
  function ProvisionFailed(l: Ledger): Ledger {
    if l.status.PROVISIONING? || l.status.RUNNING? then l.(status := PROVISION_FAILED) else l
  }

  function SumFor(deltas: seq<Delta>, period: nat): nat {
    if deltas == [] then 0
    else
      var last := deltas[|deltas| - 1];
      SumFor(deltas[..|deltas| - 1], period) + if last.period == period then last.bytes else 0
  }

  function SumAll(deltas: seq<Delta>): nat {
    if deltas == [] then 0 else SumAll(deltas[..|deltas| - 1]) + deltas[|deltas| - 1].bytes
  }

  /** `reconcile_usage_period_cache`. */
  function Repaired(l: Ledger): Ledger {
    l.(periods := seq(|l.periods|, i requires 0 <= i < |l.periods| => l.periods[i].(used := SumFor(l.deltas, i))))
  }

  function Mismatches(l: Ledger, n: nat): nat
    requires n <= |l.periods|
  {
    if n == 0 then 0 else Mismatches(l, n - 1) + if l.periods[n - 1].used != SumFor(l.deltas, n - 1) then 1 else 0
  }

  datatype Step =
    | SyncStep(reported: int, now: int)
    | EnqueueStep(at: int, duration: nat, quota: int)
    | ActivateStep
    | FailStep
    | RepairStep

  function Next(l: Ledger, s: Step, grace: nat): Ledger
    requires l.current < |l.periods|
  {
    match s
    case SyncStep(reported, now) => Sync(l, reported, now, grace).0
    case EnqueueStep(now, duration, quota) => Enqueued(l, now, duration, quota)
    case ActivateStep => Activated(l)
    case FailStep => ProvisionFailed(l)
    case RepairStep => Repaired(l)
  }

  function Exec(l: Ledger, steps: seq<Step>, grace: nat): (r: Ledger)
    requires l.current < |l.periods|
    ensures r.current < |r.periods|
    decreases |steps|
  {
    if steps == [] then l else Exec(Next(l, steps[0], grace), steps[1..], grace)
  }

  // ------------------------------------------------------- the period queue

  /** Closed periods, then the current one, then the queue; the current period is ACTIVE and its end
      is the service end exactly as long as the service is not in grace. */
  ghost predicate QueueOk(l: Ledger) {
    && l.current < |l.periods|
    && (forall i | 0 <= i < l.current :: l.periods[i].status.CLOSED?)
    && (forall i | l.current < i < |l.periods| :: l.periods[i].status.QUEUED?)
    && (if l.status.GRACE? || l.status.EXPIRED? then l.periods[l.current].status.CLOSED?
        else l.periods[l.current].status.ACTIVE? && l.expireAt == l.periods[l.current].end)
  }

  /** The cached totals and the alerts are what the deltas say. */
  ghost predicate CacheOk(l: Ledger) {
    && (forall i | 0 <= i < |l.periods| :: l.periods[i].used == SumFor(l.deltas, i))
    && (forall k | 0 <= k < |l.deltas| :: l.deltas[k].period < |l.periods|)
    && AlertsOk(l.periods, l.alerts)
  }

  ghost predicate AlertsOk(periods: seq<Period>, alerts: set<(nat, int)>) {
    forall i: nat, t :: (i, t) in alerts <==> i < |periods| && t in THRESHOLDS && Reached(periods[i], t)
  }

  predicate Rank(a: PeriodStatus, b: PeriodStatus) {
    a == b || a.QUEUED? || b.CLOSED?
  }

  /** Periods are never lost or reordered, and each moves only QUEUED, ACTIVE, CLOSED. */
  ghost predicate Moves(l: Ledger, m: Ledger) {
    && |l.periods| <= |m.periods| && l.current <= m.current
    && (forall i | 0 <= i < |l.periods| ::
          Rank(l.periods[i].status, m.periods[i].status) && m.periods[i].quota == l.periods[i].quota)
    && l.deltas <= m.deltas && l.samples <= m.samples
    && (forall a | a in l.alerts :: a in m.alerts)
  }

  lemma FirstQueuedIsNext(l: Ledger)
    requires QueueOk(l)
    ensures FirstQueued(l.periods, 0) == (if l.current + 1 < |l.periods| then Some(l.current + 1) else None)
  {
    var r := FirstQueued(l.periods, 0);
    if l.current + 1 < |l.periods| {
      assert l.periods[l.current + 1].status.QUEUED?;
      assert r.Some?;
    }
  }

  /** The service end of a running subscription is the end of its current period, so the separate
      check of the service end never fires: inside quota and end the policy changes nothing at all. */
  lemma SecondGraceBranchIsUnreachable(l: Ledger, now: int, grace: nat)
    requires QueueOk(l) && l.status.RUNNING?
    requires l.periods[l.current].used < l.periods[l.current].quota && now < l.periods[l.current].end
    ensures now < l.expireAt && Policed(l, now, grace) == (l, false)
  {
  }

  lemma PolicyKeepsQueue(l: Ledger, now: int, grace: nat)
    requires QueueOk(l)
    ensures QueueOk(Policed(l, now, grace).0) && Moves(l, Policed(l, now, grace).0)
    ensures forall i | 0 <= i < |l.periods| :: Policed(l, now, grace).0.periods[i].used == l.periods[i].used
  {
  }

  lemma SumForAppend(deltas: seq<Delta>, d: Delta, period: nat)
    ensures SumFor(deltas + [d], period) == SumFor(deltas, period) + if d.period == period then d.bytes else 0
  {
  }

  lemma {:induction false} NothingForNewPeriods(deltas: seq<Delta>, n: nat)
    requires forall k | 0 <= k < |deltas| :: deltas[k].period < n
    ensures SumFor(deltas, n) == 0
  {
    if deltas != [] {
      NothingForNewPeriods(deltas[..|deltas| - 1], n);
    }
  }

  lemma RecordKeeps(l: Ledger, counter: nat, now: int)
    requires QueueOk(l) && CacheOk(l)
    ensures var r := Recorded(l, counter, now);
            && QueueOk(r) && Moves(l, r) && r.alerts == l.alerts
            && (forall i | 0 <= i < |r.periods| :: r.periods[i].used == SumFor(r.deltas, i))
            && (forall k | 0 <= k < |r.deltas| :: r.deltas[k].period < |r.periods|)
            && (forall i | 0 <= i < |r.periods| && i != r.current :: r.periods[i] == l.periods[i])
            && r.periods[r.current].used >= l.periods[r.current].used
            && r.current == l.current && |r.periods| == |l.periods|
  {
  }

  lemma ReachedMonotone(p: Period, q: Period, t: int)
    requires p.quota == q.quota && p.used <= q.used && Reached(p, t)
    ensures Reached(q, t)
  {
    var a, b := p.used * 100, q.used * 100;
    DivisionMonotone(a, b, p.quota);
  }

  lemma DivisionMonotone(a: int, b: int, d: int)
    requires a <= b && d > 0
    ensures a / d <= b / d
  {
    var x, y := a / d, b / d;
    assert x * d <= a && a < (y + 1) * d;
    LessByFactor(x, y + 1, d);
  }

  lemma LessByFactor(x: int, y: int, d: int)
    requires d > 0 && x * d < y * d
    ensures x < y
  {
  }

  lemma AlertsKeep(l: Ledger, r: Ledger)
    requires CacheOk(l) && r.current < |r.periods| && |r.periods| == |l.periods| && r.alerts == l.alerts
    requires forall i | 0 <= i < |r.periods| && i != r.current :: r.periods[i] == l.periods[i]
    requires r.periods[r.current].quota == l.periods[r.current].quota
    requires r.periods[r.current].used >= l.periods[r.current].used
    ensures AlertsOk(r.periods, Alerted(r).alerts)
  {
    hide Reached, SumFor;
    var c := r.current;
    forall i: nat, t
      ensures (i, t) in Alerted(r).alerts <==> i < |r.periods| && t in THRESHOLDS && Reached(r.periods[i], t)
    {
      if (i, t) in l.alerts && i == c {
        ReachedMonotone(l.periods[c], r.periods[c], t);
      }
    }
  }

  lemma PolicyKeepsCache(l: Ledger, now: int, grace: nat)
    requires QueueOk(l) && CacheOk(l)
    ensures CacheOk(Policed(l, now, grace).0)
  {
  }

  lemma MovesTrans(a: Ledger, b: Ledger, c: Ledger)
    requires Moves(a, b) && Moves(b, c)
    ensures Moves(a, c)
  {
  }

  lemma SyncKeeps(l: Ledger, reported: int, now: int, grace: nat)
    requires QueueOk(l) && CacheOk(l)
    ensures var r := Sync(l, reported, now, grace).0;
            QueueOk(r) && CacheOk(r) && Moves(l, r)
  {
    hide SumFor, Reached, Policed, Latest;
    var counter := if reported < 0 then 0 else reported;
    RecordKeeps(l, counter, now);
    var recorded := Recorded(l, counter, now);
    AlertsKeep(l, recorded);
    var alerted := Alerted(recorded);
    assert QueueOk(alerted) && CacheOk(alerted);
    PolicyKeepsQueue(alerted, now, grace);
    PolicyKeepsCache(alerted, now, grace);
    assert Moves(l, alerted);
    MovesTrans(l, alerted, Policed(alerted, now, grace).0);
  }

  lemma EnqueueKeeps(l: Ledger, now: int, duration: nat, quota: int)
    requires QueueOk(l) && CacheOk(l)
    ensures var r := Enqueued(l, now, duration, quota);
            QueueOk(r) && CacheOk(r) && Moves(l, r)
  {
    hide SumFor;
    NothingForNewPeriods(l.deltas, |l.periods|);
    var r := Enqueued(l, now, duration, quota);
    forall i: nat, t
      ensures (i, t) in r.alerts <==> i < |r.periods| && t in THRESHOLDS && Reached(r.periods[i], t)
    {
      if i == |l.periods| && t in THRESHOLDS && quota > 0 {
        assert 0 / quota == 0;
      }
    }
  }

  lemma RepairChangesNothing(l: Ledger)
    requires CacheOk(l)
    ensures Repaired(l) == l
  {
  }

  lemma NextKeeps(l: Ledger, s: Step, grace: nat)
    requires QueueOk(l) && CacheOk(l)
    ensures var r := Next(l, s, grace);
            QueueOk(r) && CacheOk(r) && Moves(l, r)
  {
    hide Sync, Repaired, Reached, SumFor;
    match s {
      case SyncStep(reported, now) => SyncKeeps(l, reported, now, grace);
      case EnqueueStep(now, duration, quota) => EnqueueKeeps(l, now, duration, quota);
      case ActivateStep =>
      case FailStep =>
      case RepairStep => RepairChangesNothing(l);
    }
  }

  lemma {:induction false} RunKeeps(l: Ledger, steps: seq<Step>, grace: nat)
    requires QueueOk(l) && CacheOk(l)
    ensures var r := Exec(l, steps, grace);
            QueueOk(r) && CacheOk(r) && Moves(l, r)
    decreases |steps|
  {
    hide Next, Reached, SumFor;
    if steps != [] {
      NextKeeps(l, steps[0], grace);
      RunKeeps(Next(l, steps[0], grace), steps[1..], grace);
      MovesTrans(l, Next(l, steps[0], grace), Exec(l, steps, grace));
    }
  }

  // -------------------------------------------------------------- theorems

  /** Over every run from a new purchase: at most one period is ACTIVE, the periods form closed,
      current and queued in id order, a running service ends with its current period, every cached
      total is the sum of its deltas, and exactly the reached thresholds are alerted. Between any two
      moments of a run no period, delta, sample or alert is lost, quotas stay, and a period only goes
      from QUEUED to ACTIVE to CLOSED. */
  lemma PeriodMachine(now: int, duration: nat, quota: int, steps: seq<Step>, later: seq<Step>, grace: nat)
    ensures var r := Exec(Prepared(now, duration, quota), steps, grace);
            && QueueOk(r) && CacheOk(r) && Moves(r, Exec(r, later, grace))
            && (forall i, j | 0 <= i < |r.periods| && 0 <= j < |r.periods|
                  && r.periods[i].status.ACTIVE? && r.periods[j].status.ACTIVE? :: i == j)
            && (r.status.RUNNING? ==> r.periods[r.current].status.ACTIVE? && r.expireAt == r.periods[r.current].end)
  {
    hide Exec, Reached;
    var l := Prepared(now, duration, quota);
    NothingReached(l.periods[0]);
    RunKeeps(l, steps, grace);
    RunKeeps(Exec(l, steps, grace), later, grace);
  }

  lemma NothingReached(p: Period)
    requires p.used == 0
    ensures forall t | t in THRESHOLDS :: !Reached(p, t)
  {
  }

  /** The policy closes the current period of a running service, and then asks for a reconcile, exactly
      when its quota is used up or its end has come; in grace it expires the service exactly when the
      grace is over; any other service it leaves alone. */
  lemma PolicyExactly(l: Ledger, now: int, grace: nat)
    requires QueueOk(l)
    ensures var (r, reconcile) := Policed(l, now, grace);
            var p := l.periods[l.current];
            && (l.status.RUNNING? ==>
                  && (r.periods[l.current].status.CLOSED? <==> p.used >= p.quota || now >= p.end)
                  && (reconcile <==> p.used >= p.quota || now >= p.end)
                  && (!reconcile ==> r == l))
            && (l.status.GRACE? ==>
                  && !reconcile && r == l.(status := r.status) && !r.status.RUNNING?
                  && (r.status.EXPIRED? <==> now >= l.expireAt) && (r.status.GRACE? <==> now < l.expireAt))
            && (!l.status.RUNNING? && !l.status.GRACE? ==> r == l && !reconcile)
  {
  }

  /** A period whose quota is used up or whose end has come hands over to the oldest renewal, for thirty
      days from now, or the service goes into grace. */
  lemma Rollover(l: Ledger, now: int, grace: nat)
    requires QueueOk(l) && l.status.RUNNING?
    requires l.periods[l.current].used >= l.periods[l.current].quota || now >= l.periods[l.current].end
    ensures var r := Policed(l, now, grace).0;
            && r.periods[l.current].status.CLOSED?
            && (if l.current + 1 < |l.periods|
                then r.current == l.current + 1 && r.periods[r.current].status.ACTIVE? && r.status.RUNNING?
                     && r.expireAt == r.periods[r.current].end == now + 30 * 24 * 3600
                else r.status.GRACE? && r.expireAt == now + grace && r.current == l.current)
  {
    FirstQueuedIsNext(l);
  }

  /** From the traffic to the policy: a sync of a running service closes its period exactly when the
      deltas of the period, with the one of this sync, have used up the quota, or its end has come. */
  lemma SyncClosesIff(l: Ledger, reported: int, now: int, grace: nat)
    requires QueueOk(l) && CacheOk(l) && l.status.RUNNING?
    ensures var r := Sync(l, reported, now, grace).0;
            r.periods[l.current].status.CLOSED? <==>
            SumFor(r.deltas, l.current) >= l.periods[l.current].quota || now >= l.periods[l.current].end
  {
    hide Policed, SumFor, Reached, Latest, AlertsOk;
    var counter := if reported < 0 then 0 else reported;
    RecordKeeps(l, counter, now);
    var alerted := Alerted(Recorded(l, counter, now));
    PolicyExactly(alerted, now, grace);
    PolicyKeepsDeltas(alerted, now, grace);
  }

  lemma PolicyKeepsDeltas(l: Ledger, now: int, grace: nat)
    requires l.current < |l.periods|
    ensures Policed(l, now, grace).0.deltas == l.deltas
  {
  }

  /** The row a sync writes: the delta from the latest sample to the new one, in the current period. The
      first sample is a bootstrap; a counter at or above its predecessor is normal and counts the
      difference; a lower one is a reset and counts whole. A negative counter is read as zero. */
  lemma SyncWritesItsDelta(l: Ledger, reported: int, now: int, grace: nat)
    requires l.current < |l.periods|
    ensures var r := Sync(l, reported, now, grace).0;
            var counter := if reported >= 0 then reported else 0;
            && r.samples == l.samples + [Sample(counter, now)]
            && |r.deltas| == |l.deltas| + 1 && r.deltas[..|l.deltas|] == l.deltas
            && var d := r.deltas[|l.deltas|];
            && d.period == l.current && d.to == |l.samples| && d.from == Latest(l.samples)
            && (l.samples == [] ==> d.reason == BOOTSTRAP && d.bytes == counter)
            && (l.samples != [] ==>
                  var previous := l.samples[Latest(l.samples).value].counter;
                  && (counter >= previous ==> d.reason == NORMAL && d.bytes == counter - previous)
                  && (counter < previous ==> d.reason == COUNTER_RESET && d.bytes == counter))
  {
    hide Latest, Reached, FirstQueued;
  }

  /** The service end by itself, whatever the periods say: a running service whose period goes on but
      whose end has come enters grace, one grace length from that end. */
  lemma ServiceEndStartsGrace(l: Ledger, now: int, grace: nat)
    requires l.current < |l.periods| && l.status.RUNNING? && now >= l.expireAt
    requires l.periods[l.current].used < l.periods[l.current].quota && now < l.periods[l.current].end
    ensures Policed(l, now, grace) == (l.(status := GRACE, expireAt := l.expireAt + grace), true)
  {
  }

  /** What else moves the service: an activation starts one that is being provisioned or has failed, a
      failed provisioning stops one that is being provisioned or runs, and no other step but a sync
      changes its status. */
  lemma StatusMovesExactly(l: Ledger, grace: nat, at: int, days: nat, bytes: int)
    requires QueueOk(l)
    ensures var started := Next(l, ActivateStep, grace);
            && started == l.(status := started.status)
            && (started.status.RUNNING? <==> l.status.RUNNING? || l.status.PROVISIONING? || l.status.PROVISION_FAILED?)
            && (started.status.GRACE? <==> l.status.GRACE?) && (started.status.EXPIRED? <==> l.status.EXPIRED?)
    ensures var failed := Next(l, FailStep, grace);
            && failed == l.(status := failed.status)
            && (failed.status.PROVISION_FAILED? <==> l.status.PROVISION_FAILED? || l.status.PROVISIONING? || l.status.RUNNING?)
            && (failed.status.GRACE? <==> l.status.GRACE?) && (failed.status.EXPIRED? <==> l.status.EXPIRED?)
    ensures Next(l, EnqueueStep(at, days, bytes), grace).status == Next(l, RepairStep, grace).status == l.status
  {
  }

  /** A threshold is reached when that percentage of the quota is used. */
  lemma ReachedExactly(p: Period, threshold: int)
    ensures Reached(p, threshold) <==> p.quota > 0 && p.used * 100 >= threshold * p.quota
  {
    if p.quota > 0 {
      var a, q := p.used * 100, p.quota;
      var x := a / q;
      assert x * q <= a < (x + 1) * q;
      if x >= threshold {
        OrderByFactor(threshold, x, q);
      } else {
        OrderByFactor(x + 1, threshold, q);
      }
    }
  }

  lemma OrderByFactor(x: int, y: int, q: int)
    requires x <= y && q > 0
    ensures x * q <= y * q
  {
  }

  /** Over every run from a new purchase, the alerts are exactly these: a period and one of 70, 90 and
      100 percent, when that much of its quota is in its deltas. */
  lemma AlertsExactly(now: int, duration: nat, quota: int, steps: seq<Step>, grace: nat, i: nat, t: int)
    ensures var r := Exec(Prepared(now, duration, quota), steps, grace);
            (i, t) in r.alerts <==>
            && i < |r.periods| && (t == 70 || t == 90 || t == 100)
            && r.periods[i].quota > 0 && SumFor(r.deltas, i) * 100 >= t * r.periods[i].quota
  {
    hide Exec, Reached, SumFor;
    PeriodMachine(now, duration, quota, steps, [], grace);
    var r := Exec(Prepared(now, duration, quota), steps, grace);
    assert (i, t) in r.alerts <==> i < |r.periods| && t in THRESHOLDS && Reached(r.periods[i], t);
    if i < |r.periods| {
      ReachedExactly(r.periods[i], t);
    }
  }

  // ------------------------------------------------------ what was bought

  /** A bought period: how many days from when, and how many bytes. */
  datatype Bought = Bought(at: int, days: nat, bytes: int)

  function Orders(steps: seq<Step>): seq<Bought> {
    if steps == [] then []
    else
      var rest := Orders(steps[1..]);
      if steps[0].EnqueueStep? then [Bought(steps[0].at, steps[0].duration, steps[0].quota)] + rest else rest
  }

  /** The periods are the bought ones, in order of their orders: the quota of each is what was bought,
      and while it waits it ends as many days after its order as were bought. */
  ghost predicate AreBought(l: Ledger, bought: seq<Bought>) {
    && |l.periods| == |bought|
    && forall i | 0 <= i < |bought| ::
         && l.periods[i].quota == bought[i].bytes
         && (l.periods[i].status.QUEUED? ==> l.periods[i].end == bought[i].at + bought[i].days * 24 * 3600)
  }

  lemma StepKeepsBought(l: Ledger, s: Step, grace: nat, bought: seq<Bought>)
    requires QueueOk(l) && CacheOk(l) && AreBought(l, bought)
    ensures AreBought(Next(l, s, grace), bought + Orders([s]))
  {
    hide SumFor, Reached, Latest, FirstQueued, AlertsOk, Repaired;
    RepairChangesNothing(l);
    assert [s][1..] == [] && Orders([]) == [];
    if s.EnqueueStep? {
      assert Orders([s]) == [Bought(s.at, s.duration, s.quota)];
    } else {
      assert Orders([s]) == [] && bought + [] == bought;
    }
  }

  lemma {:induction false} RunKeepsBought(l: Ledger, steps: seq<Step>, grace: nat, bought: seq<Bought>)
    requires QueueOk(l) && CacheOk(l) && AreBought(l, bought)
    ensures AreBought(Exec(l, steps, grace), bought + Orders(steps))
    decreases |steps|
  {
    hide Next, AreBought, CacheOk;
    if steps == [] {
      assert bought + Orders(steps) == bought;
    } else {
      NextKeeps(l, steps[0], grace);
      StepKeepsBought(l, steps[0], grace, bought);
      RunKeepsBought(Next(l, steps[0], grace), steps[1..], grace, bought + Orders([steps[0]]));
      assert Orders([steps[0]][1..]) == [];
      assert bought + Orders([steps[0]]) + Orders(steps[1..]) == bought + Orders(steps);
    }
  }

  /** Over every run from a new purchase: every period is a bought one, in order, with the bytes that
      were bought, and waits with the days that were bought; the first one starts the service for its
      days. */
  lemma PeriodsAreBought(now: int, days: nat, bytes: int, steps: seq<Step>, grace: nat)
    ensures AreBought(Exec(Prepared(now, days, bytes), steps, grace), [Bought(now, days, bytes)] + Orders(steps))
    ensures var l := Prepared(now, days, bytes);
            && l.status.PROVISIONING? && l.current == 0 && |l.periods| == 1 && l.periods[0].status.ACTIVE?
            && l.expireAt == l.periods[0].end == now + days * 24 * 3600 && l.periods[0].used == 0
  {
    hide Exec, Reached, SumFor;
    var l := Prepared(now, days, bytes);
    NothingReached(l.periods[0]);
    assert QueueOk(l) && CacheOk(l) by {
      NothingFor([], 0);
    }
    RunKeepsBought(l, steps, grace, [Bought(now, days, bytes)]);
  }

  lemma NothingFor(deltas: seq<Delta>, period: nat)
    requires deltas == []
    ensures SumFor(deltas, period) == 0
  {
  }

  predicate SyncsBefore(steps: seq<Step>, limit: int) {
    forall k | 0 <= k < |steps| && steps[k].SyncStep? :: steps[k].now < limit
  }

  /** Grace lasts: no sync before its end, and nothing else, takes the service out of it. Grace
      starts with `expireAt` one grace length ahead (Rollover), so EXPIRED comes no sooner. */
  lemma {:induction false} GraceLasts(l: Ledger, steps: seq<Step>, grace: nat)
    requires QueueOk(l) && CacheOk(l) && l.status.GRACE? && SyncsBefore(steps, l.expireAt)
    ensures Exec(l, steps, grace).status.GRACE? && Exec(l, steps, grace).expireAt == l.expireAt
    decreases |steps|
  {
    hide Reached, SumFor, Latest;
    if steps != [] {
      NextKeeps(l, steps[0], grace);
      assert SyncsBefore(steps[1..], l.expireAt);
      GraceLasts(Next(l, steps[0], grace), steps[1..], grace);
    }
  }

  /** A renewal that arrives in grace, or later, stays queued for good: promotion asks for a running
      service, and nothing here makes the service run again. */
  lemma {:induction false} RenewalInGraceIsNeverPromoted(l: Ledger, steps: seq<Step>, grace: nat)
    requires QueueOk(l) && CacheOk(l) && (l.status.GRACE? || l.status.EXPIRED?)
    ensures var r := Exec(l, steps, grace);
            && (r.status.GRACE? || r.status.EXPIRED?) && r.current == l.current
            && (forall i | 0 <= i < |r.periods| :: !r.periods[i].status.ACTIVE?)
            && (forall i | l.current < i < |r.periods| :: r.periods[i].status.QUEUED?)
    decreases |steps|
  {
    hide Reached, SumFor, Latest;
    if steps != [] {
      NextKeeps(l, steps[0], grace);
      RenewalInGraceIsNeverPromoted(Next(l, steps[0], grace), steps[1..], grace);
    }
  }

  /** One repair makes every cached total right, from any cache; it counts what was wrong, and a
      second repair finds nothing. */
  lemma RepairIsExact(l: Ledger)
    ensures var r := Repaired(l);
            && (forall i | 0 <= i < |r.periods| :: r.periods[i] == l.periods[i].(used := SumFor(l.deltas, i)))
            && Mismatches(r, |r.periods|) == 0 && Repaired(r) == r
            && (Mismatches(l, |l.periods|) == 0 <==> r == l)
  {
    hide SumFor;
    var r := Repaired(l);
    NoMismatch(r, |r.periods|);
    NoMismatch(l, |l.periods|);
    assert Repaired(r).periods == r.periods;
    if forall i | 0 <= i < |l.periods| :: l.periods[i].used == SumFor(l.deltas, i) {
      assert r.periods == l.periods;
    } else {
      var i :| 0 <= i < |l.periods| && l.periods[i].used != SumFor(l.deltas, i);
      assert r.periods[i].used == SumFor(l.deltas, i);
    }
  }

  lemma {:induction false} NoMismatch(l: Ledger, n: nat)
    requires n <= |l.periods|
    ensures Mismatches(l, n) == 0 <==> forall i | 0 <= i < n :: l.periods[i].used == SumFor(l.deltas, i)
  {
    if n > 0 {
      NoMismatch(l, n - 1);
    }
  }

  function SumUsed(periods: seq<Period>): int {
    if periods == [] then 0 else SumUsed(periods[..|periods| - 1]) + periods[|periods| - 1].used
  }

  function SumOverPeriods(deltas: seq<Delta>, n: nat): nat {
    if n == 0 then 0 else SumOverPeriods(deltas, n - 1) + SumFor(deltas, n - 1)
  }

  lemma {:induction false} SumsExchange(deltas: seq<Delta>, n: nat)
    requires forall k | 0 <= k < |deltas| :: deltas[k].period < n
    ensures SumOverPeriods(deltas, n) == SumAll(deltas)
  {
    if deltas == [] {
      NothingOverPeriods(n);
    } else {
      var front, last := deltas[..|deltas| - 1], deltas[|deltas| - 1];
      SumsExchange(front, n);
      assert deltas == front + [last];
      OnePeriodGrows(front, last, n);
    }
  }

  lemma {:induction false} NothingOverPeriods(n: nat)
    ensures SumOverPeriods([], n) == 0
  {
    if n > 0 {
      NothingOverPeriods(n - 1);
    }
  }

  lemma {:induction false} OnePeriodGrows(deltas: seq<Delta>, d: Delta, n: nat)
    ensures SumOverPeriods(deltas + [d], n) == SumOverPeriods(deltas, n) + if d.period < n then d.bytes else 0
  {
    if n > 0 {
      OnePeriodGrows(deltas, d, n - 1);
      SumForAppend(deltas, d, n - 1);
    }
  }

  /** No byte is counted for two periods or for none: the cached totals add up to the deltas. */
  lemma UsedIsWhatWasMetered(l: Ledger)
    requires CacheOk(l)
    ensures SumUsed(l.periods) == SumAll(l.deltas)
  {
    UsedOverPeriods(l, |l.periods|);
    assert l.periods[..|l.periods|] == l.periods;
    SumsExchange(l.deltas, |l.periods|);
  }

  lemma {:induction false} UsedOverPeriods(l: Ledger, n: nat)
    requires n <= |l.periods| && CacheOk(l)
    ensures SumUsed(l.periods[..n]) == SumOverPeriods(l.deltas, n)
  {
    hide Reached, SumFor;
    if n > 0 {
      UsedOverPeriods(l, n - 1);
      assert l.periods[..n][..n - 1] == l.periods[..n - 1];
    }
  }
}
