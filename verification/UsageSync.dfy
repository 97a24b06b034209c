/** The ledger in place: rows added and rewritten by one session, proved equal to module UsageLedger. */
module UsageSync {
  import opened UsageLedger
  import opened Wrappers

  class Session {
    var status: SubscriptionStatus
    var expireAt: int
    var current: nat
    var periods: seq<Period>
    var samples: seq<Sample>
    var deltas: seq<Delta>
    var alerts: set<(nat, int)>

    constructor (l: Ledger)
      ensures Now() == l
    {
      status, expireAt, current := l.status, l.expireAt, l.current;
      periods, samples, deltas, alerts := l.periods, l.samples, l.deltas, l.alerts;
    }

    function Now(): Ledger
      reads this
    {
      Ledger(status, expireAt, current, periods, samples, deltas, alerts)
    }

    /** `order_by(sampled_at.desc(), id.desc()).limit(1)`. */
    method LatestSample() returns (latest: Option<nat>)
      ensures latest == Latest(samples)
    {
      latest := None;
      var i := 0;
      while i < |samples|
        invariant 0 <= i <= |samples|
        invariant latest == Latest(samples[..i])
      {
        assert samples[..i + 1][..i] == samples[..i];
        if latest.None? || samples[latest.value].at <= samples[i].at {
          latest := Some(i);
        }
        i := i + 1;
      }
      assert samples[..i] == samples;
    }

    /** `record_usage_alerts`: three thresholds, each recorded once. */
    method RecordUsageAlerts()
      requires current < |periods|
      modifies this`alerts
      ensures Now() == Alerted(old(Now()))
    {
      var p := periods[current];
      ghost var before := alerts;
      if p.quota <= 0 {
        assert alerts == Alerted(Now()).alerts;
        return;
      }
      var percent := p.used * 100 / p.quota;
      for k := 0 to |THRESHOLDS|
        invariant alerts == before + set j | 0 <= j < k && percent >= THRESHOLDS[j] :: (current, THRESHOLDS[j])
      {
        var threshold := THRESHOLDS[k];
        if percent >= threshold && (current, threshold) !in alerts {
          alerts := alerts + {(current, threshold)};
        }
      }
      assert alerts == before + set t | t in THRESHOLDS && Reached(p, t) :: (current, t);
    }

    /** `apply_expiry_policy`. */
    method ApplyExpiryPolicy(now: int, grace: nat) returns (needsReconcile: bool)
      requires current < |periods|
      modifies this`status, this`expireAt, this`current, this`periods
      ensures (Now(), needsReconcile) == Policed(old(Now()), now, grace)
    {
      var p := periods[current];
      if status.RUNNING? && (p.used >= p.quota || now >= p.end) {
        var n := 0;
        while n < |periods| && !periods[n].status.QUEUED?
          invariant 0 <= n <= |periods|
          invariant FirstQueued(periods, 0) == FirstQueued(periods, n)
        {
          n := n + 1;
        }
        periods := periods[current := p.(status := CLOSED)];
        if n < |periods| {
          periods := periods[n := periods[n].(status := ACTIVE, end := now + ROLLOVER)];
          current := n;
          expireAt := now + ROLLOVER;
        } else {
          status := GRACE;
          expireAt := now + grace;
        }
        return true;
      }
      if status.RUNNING? && now >= expireAt {
        status := GRACE;
        expireAt := expireAt + grace;
        return true;
      }
      if status.GRACE? && now >= expireAt {
        status := EXPIRED;
      }
      needsReconcile := false;
    }

    /** `sync_subscription_usage` up to its commit: what it returns, and whether it asks for a
        reconcile and for the release of the egress. */
    method SyncSubscriptionUsage(reported: int, now: int, grace: nat)
      returns (bytes: nat, needsReconcile: bool, releaseRequested: bool)
      requires current < |periods|
      modifies this
      ensures (Now(), needsReconcile) == Sync(old(Now()), reported, now, grace)
      ensures bytes == DeltaBytes(PreviousCounter(old(samples)), if reported < 0 then 0 else reported)
      ensures releaseRequested <==> status.EXPIRED?
    {
      var counter := if reported < 0 then 0 else reported;
      var previous := LatestSample();
      var reason;
      if previous.None? {
        bytes, reason := counter, BOOTSTRAP;
      } else if counter >= samples[previous.value].counter {
        bytes, reason := counter - samples[previous.value].counter, NORMAL;
      } else {
        bytes, reason := counter, COUNTER_RESET;
      }
      deltas := deltas + [Delta(current, previous, |samples|, bytes, reason)];
      samples := samples + [Sample(counter, now)];
      periods := periods[current := periods[current].(used := periods[current].used + bytes)];
      RecordUsageAlerts();
      needsReconcile := ApplyExpiryPolicy(now, grace);
      releaseRequested := status.EXPIRED?;
    }

    /** `reconcile_usage_period_cache`: the number of repaired totals. */
    method ReconcileUsagePeriodCache() returns (repaired: nat)
      modifies this`periods
      ensures Now() == Repaired(old(Now()))
      ensures repaired == Mismatches(old(Now()), |old(periods)|)
    {
      repaired := 0;
      ghost var l := Now();
      for n := 0 to |periods|
        invariant |periods| == |l.periods|
        invariant forall i | 0 <= i < n :: periods[i] == l.periods[i].(used := SumFor(l.deltas, i))
        invariant forall i | n <= i < |periods| :: periods[i] == l.periods[i]
        invariant repaired == Mismatches(l, n)
      {
        var authoritative := SumForPeriod(n);
        if periods[n].used != authoritative {
          periods := periods[n := periods[n].(used := authoritative)];
          repaired := repaired + 1;
        }
      }
      assert periods == Repaired(l).periods;
    }

    /** `coalesce(sum(delta_bytes), 0)` of one period. */
    method SumForPeriod(period: nat) returns (sum: nat)
      ensures sum == SumFor(deltas, period)
    {
      sum := 0;
      for k := 0 to |deltas|
        invariant sum == SumFor(deltas[..k], period)
      {
        assert deltas[..k + 1][..k] == deltas[..k];
        if deltas[k].period == period {
          sum := sum + deltas[k].bytes;
        }
      }
      assert deltas[..|deltas|] == deltas;
    }
  }
}
