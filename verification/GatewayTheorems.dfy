/** What the commit-first gateway queue keeps, over every run and every interleaving of purchases,
    releases and recoveries. */
module GatewayTheorems {
  import opened Durable
  import opened GatewayQueue
  import opened Limits
  import opened RoutingSnapshot
  import opened Strings
  import opened Wrappers

  predicate Settled(s: Subscription) {
    s.status.ACTIVE? && s.order.ACTIVATED? && s.run.Succeeded?
  }

  predicate Unsettled(s: Subscription) {
    !s.status.ACTIVE? && !s.order.ACTIVATED? && !s.run.Succeeded?
  }

  ghost predicate HasKey(db: Db, key: Key) {
    exists id :: id in db.jobs && db.jobs[id].key == key
  }

  /** A binding that once existed and is not the unreleased one any more. */
  predicate Gone(db: Db, subscription: nat, binding: nat) {
    && binding < db.nextBinding
    && (subscription in db.authority.bindings ==> db.authority.bindings[subscription].id != binding)
  }

  ghost predicate ReleaseNamed(db: Db, j: Job) {
    Custom(j.key.operationId) || exists b :: Gone(db, j.subscription, b) && j.key == ReleaseKey(j.subscription, b)
  }

  /** A purchase row and the statuses it finalizes change together; a release row is named after a
      binding that is gone, or by an operation id of its own. */
  ghost predicate JobOk(db: Db, j: Job) {
    && j.attempts <= j.maxAttempts && j.subscription in db.subscriptions
    && (j.key.kind.PURCHASE? ==>
          && j.key == PurchaseKey(j.subscription)
          && (if Unresolved(j) then Unsettled(db.subscriptions[j.subscription]) else Settled(db.subscriptions[j.subscription])))
    && (j.key.kind.RELEASE? ==> ReleaseNamed(db, j))
  }

  ghost predicate JobsOk(db: Db) {
    forall id | id in db.jobs :: id < db.nextJob && JobOk(db, db.jobs[id])
  }

  ghost predicate KeysUnique(db: Db) {
    forall i, j | i in db.jobs && j in db.jobs && db.jobs[i].key == db.jobs[j].key :: i == j
  }

  ghost predicate OneUnresolved(db: Db) {
    forall i, j | i in db.jobs && j in db.jobs && Unresolved(db.jobs[i]) && Unresolved(db.jobs[j]) :: i == j
  }

  /** Only a purchase intent settles a subscription or routes it. */
  ghost predicate TablesOk(db: Db) {
    && (forall s | s in db.subscriptions :: HasKey(db, PurchaseKey(s)) || Unsettled(db.subscriptions[s]))
    && (forall s | s in db.authority.bindings :: db.authority.bindings[s].id < db.nextBinding)
    && (forall s | Routed(db.authority, s) :: HasKey(db, PurchaseKey(s)))
  }

  ghost predicate Inv(db: Db) {
    JobsOk(db) && KeysUnique(db) && OneUnresolved(db) && TablesOk(db)
  }

  /** With no unresolved intent, the gateway routes exactly what the committed tables say. */
  ghost predicate Agrees(w: World) {
    !Blocked(w.db) ==> Snapshot(w.db.authority).Success? && w.running == Some(Snapshot(w.db.authority).value)
  }

  ghost predicate WorldInv(w: World) {
    Inv(w.db) && Agrees(w)
  }

  /** The one unresolved job. */
  ghost predicate Mine(db: Db, id: JobId) {
    Inv(db) && id in db.jobs && Unresolved(db.jobs[id])
  }

  /** Everything but the row of one job and the row of its subscription. */
  ghost predicate Frame(db: Db, db': Db, id: JobId) {
    && id in db.jobs
    && db'.authority == db.authority && db'.nextJob == db.nextJob && db'.nextBinding == db.nextBinding
    && db'.jobs.Keys == db.jobs.Keys
    && (forall k | k in db.jobs && k != id :: db'.jobs[k] == db.jobs[k])
    && db'.jobs[id].key == db.jobs[id].key && db'.jobs[id].subscription == db.jobs[id].subscription
    && db'.jobs[id].maxAttempts == db.jobs[id].maxAttempts
    && db'.subscriptions.Keys == db.subscriptions.Keys
    && (forall s | s in db.subscriptions && s != db.jobs[id].subscription :: db'.subscriptions[s] == db.subscriptions[s])
  }

  // ----------------------------------------------------------- distinct keys

  lemma PrefixBeforeColon(a: string, b: string, x: string, y: string)
    requires a + ":" + x == b + ":" + y && ':' !in a && ':' !in b
    ensures a == b && x == y
  {
    var s := a + ":" + x;
    assert s[|a|] == ':' && s[|b|] == ':';
    assert s[..|a|] == a && s[..|b|] == b;
    assert s[|a| + 1..] == x && s[|b| + 1..] == y;
  }

  /** The text of a key names its operation: two operations never share one. */
  lemma KeysAreDistinct(s: nat, t: nat, b: nat, c: nat)
    ensures PurchaseKey(s) == PurchaseKey(t) ==> s == t
    ensures PurchaseKey(s) != ReleaseKey(t, b)
    ensures ReleaseKey(s, b) == ReleaseKey(t, c) ==> s == t && b == c
  {
    if PurchaseKey(s) == PurchaseKey(t) {
      DecimalInjective(s, t);
    }
    if ReleaseKey(s, b) == ReleaseKey(t, c) {
      PrefixBeforeColon(Decimal(s), Decimal(t), Decimal(b), Decimal(c));
      DecimalInjective(s, t);
      DecimalInjective(b, c);
    }
  }

  lemma FindKeyExact(db: Db, key: Key)
    requires forall id | id in db.jobs :: id < db.nextJob
    ensures FindKey(db, key, 0).Some? <==> HasKey(db, key)
  {
  }

  lemma FindRouteExact(a: Authority, subscription: nat)
    ensures FindRoute(a, subscription, 0).Some? <==> Routed(a, subscription)
  {
  }

  // ------------------------------------------------------ single transactions

  lemma KeysStay(db: Db, db': Db, id: JobId)
    requires Frame(db, db', id)
    ensures forall key :: HasKey(db', key) <==> HasKey(db, key)
  {
  }

  /** The claims about another row than the unresolved one. */
  lemma OtherJobStays(db: Db, db': Db, id: JobId, k: JobId)
    requires Inv(db) && Frame(db, db', id) && k in db.jobs && k != id
    requires Unresolved(db.jobs[id])
    requires SameSettlement(db.subscriptions[db.jobs[id].subscription], db'.subscriptions[db.jobs[id].subscription])
             || db.jobs[id].key.kind.PURCHASE?
    ensures JobOk(db', db'.jobs[k])
  {
    hide PurchaseKey, ReleaseKey, TablesOk;
    var j := db.jobs[k];
    assert JobOk(db, j) && JobOk(db, db.jobs[id]);
    assert j.key != db.jobs[id].key;
    if j.key.kind.RELEASE? {
      ReleasedStays(db, db', j);
    }
  }

  predicate SameSettlement(s: Subscription, t: Subscription) {
    (Settled(s) <==> Settled(t)) && (Unsettled(s) <==> Unsettled(t))
  }

  lemma ReleasedStays(db: Db, db': Db, j: Job)
    requires ReleaseNamed(db, j)
    requires forall b | Gone(db, j.subscription, b) :: Gone(db', j.subscription, b)
    ensures ReleaseNamed(db', j)
  {
  }

  /** Rewriting the unresolved job, and the row of its subscription without settling it. */
  lemma RewriteKeeps(db: Db, db': Db, id: JobId)
    requires Mine(db, id) && Frame(db, db', id)
    requires Unresolved(db'.jobs[id]) && db'.jobs[id].attempts <= db'.jobs[id].maxAttempts
    requires SameSettlement(db.subscriptions[db.jobs[id].subscription], db'.subscriptions[db.jobs[id].subscription])
    ensures Mine(db', id)
  {
    hide PurchaseKey, ReleaseKey, Routed, HasKey, ReleaseNamed;
    KeysStay(db, db', id);
    assert JobOk(db, db.jobs[id]);
    if db.jobs[id].key.kind.RELEASE? {
      ReleasedStays(db, db', db.jobs[id]);
    }
    assert ReleaseNamed(db', db.jobs[id]) ==> ReleaseNamed(db', db'.jobs[id]) by {
      SameRelease(db', db.jobs[id], db'.jobs[id]);
    }
    forall k | k in db'.jobs
      ensures JobOk(db', db'.jobs[k])
    {
      if k != id {
        OtherJobStays(db, db', id, k);
      }
    }
  }

  lemma SameRelease(db: Db, j: Job, k: Job)
    requires j.key == k.key && j.subscription == k.subscription
    ensures ReleaseNamed(db, j) <==> ReleaseNamed(db, k)
  {
  }

  lemma ClaimKeeps(db: Db, id: JobId, now: int)
    requires Mine(db, id) && db.jobs[id].attempts < db.jobs[id].maxAttempts
    ensures Mine(Claimed(db, id, now), id) && Frame(db, Claimed(db, id, now), id)
  {
    hide KeysUnique, OneUnresolved, TablesOk, ReleaseNamed, PurchaseKey;
    assert JobOk(db, db.jobs[id]);
    RewriteKeeps(db, Claimed(db, id, now), id);
  }

  lemma FailedKeeps(db: Db, id: JobId, reason: Reason, now: int)
    requires Mine(db, id)
    ensures Mine(FailedDb(db, id, reason, now), id) && Frame(db, FailedDb(db, id, reason, now), id)
  {
    hide KeysUnique, OneUnresolved, TablesOk, ReleaseNamed, PurchaseKey, BackoffMinutes;
    assert JobOk(db, db.jobs[id]);
    RewriteKeeps(db, FailedDb(db, id, reason, now), id);
  }

  lemma FinalizedKeeps(db: Db, id: JobId)
    requires Mine(db, id)
    ensures db.jobs[id].subscription in db.subscriptions
    ensures Inv(FinalizedDb(db, id)) && Frame(db, FinalizedDb(db, id), id) && !Blocked(FinalizedDb(db, id))
  {
    hide PurchaseKey, ReleaseKey, Routed, HasKey, ReleaseNamed;
    assert JobOk(db, db.jobs[id]);
    var db' := FinalizedDb(db, id);
    KeysStay(db, db', id);
    SameRelease(db', db.jobs[id], db'.jobs[id]);
    if db.jobs[id].key.kind.RELEASE? {
      ReleasedStays(db, db', db.jobs[id]);
    } else {
      HasOwnKey(db, id);
    }
    forall k | k in db'.jobs
      ensures JobOk(db', db'.jobs[k])
    {
      if k != id {
        OtherJobStays(db, db', id, k);
      }
    }
  }

  lemma HasOwnKey(db: Db, id: JobId)
    requires id in db.jobs
    ensures HasKey(db, db.jobs[id].key)
  {
  }

  /** Exact classification. With a working observer, a finalization whose commit raised is LANDED
      exactly when it landed and ABSENT exactly when it did not, so it is never marked unknown. */
  lemma FinalizationClassifiedExactly(db: Db, id: JobId, c: Commit)
    requires Mine(db, id)
    ensures db.jobs[id].subscription in db.subscriptions
    ensures var db' := After(db, FinalizedDb(db, id), c);
            && (ClassifyFinalization(db', id).LANDED? <==> c.Lands())
            && (ClassifyFinalization(db', id).ABSENT? <==> !c.Lands())
  {
  }

  // ------------------------------------------------------------- one attempt

  lemma RecordFailureKeeps(w: World, id: JobId, reason: Reason, now: int, c: Commit)
    requires Mine(w.db, id)
    ensures var r := RecordFailure(w, id, reason, now, c);
            Mine(r.0.db, id) && Frame(w.db, r.0.db, id) && r.0.running == w.running && !Finalized(r.1)
  {
    hide Inv, FailedDb;
    FailedKeeps(w.db, id, reason, now);
  }

  lemma FrameTrans(a: Db, b: Db, c: Db, id: JobId)
    requires Frame(a, b, id) && Frame(b, c, id)
    ensures Frame(a, c, id)
  {
  }

  lemma BlockedByMine(db: Db, id: JobId)
    requires id in db.jobs && Unresolved(db.jobs[id])
    ensures Blocked(db)
  {
  }

  lemma ClassifiedKeeps(w: World, db: Db, id: JobId, env: Env)
    requires Mine(db, id)
    requires db.jobs[id].subscription in db.subscriptions
    requires w.db == db || w.db == FinalizedDb(db, id)
    ensures var r := Classified(w, id, env);
            && r.0.running == w.running
            && (w.db == db ==> Mine(r.0.db, id) && Frame(db, r.0.db, id) && !Finalized(r.1))
            && (w.db == FinalizedDb(db, id) ==> r.0 == w)
  {
    hide RecordFailure, Inv;
    FinalizationClassifiedExactly(db, id, LostAbsent);
    FinalizationClassifiedExactly(db, id, LostLanded);
    if w.db == db {
      var first := RecordFailure(w, id, CommitError, env.later, env.failure);
      RecordFailureKeeps(w, id, CommitError, env.later, env.failure);
      if first.1.Raised? {
        RecordFailureKeeps(first.0, id, CommitError, env.later, env.failureAgain);
        FrameTrans(db, first.0.db, RecordFailure(first.0, id, CommitError, env.later, env.failureAgain).0.db, id);
      }
    }
  }

  predicate Finalized(s: Signal) {
    s.Returned? && s.result.Some? && s.result.value.finalized
  }

  lemma MineAgrees(w: World, id: JobId)
    requires Mine(w.db, id)
    ensures WorldInv(w) && Blocked(w.db)
  {
  }

  /** A claimed job ends unresolved, or finalized over a gateway that confirmed exactly the committed
      snapshot. */
  lemma ReconcileClaimedKeeps(w: World, id: JobId, env: Env)
    requires Mine(w.db, id)
    ensures var r := ReconcileClaimed(w, id, env);
            && WorldInv(r.0) && Frame(w.db, r.0.db, id)
            && (Finalized(r.1) ==> !Blocked(r.0.db))
  {
    hide Inv, Classified, RecordFailure, FinalizedDb, Snapshot, Blocked;
    var r := ReconcileClaimed(w, id, env);
    if Snapshot(w.db.authority).Failure? {
      RecordFailureKeeps(w, id, SnapshotInvalid, env.later, env.failure);
      MineAgrees(r.0, id);
    } else if !env.prepared {
      RecordFailureKeeps(w, id, CandidateInvalid, env.later, env.failure);
      MineAgrees(r.0, id);
    } else if env.projection.Confirmed? {
      FinalizedKeeps(w.db, id);
      var shown := World(After(w.db, FinalizedDb(w.db, id), env.finalize), Some(Snapshot(w.db.authority).value));
      ClassifiedKeeps(shown, w.db, id, env);
      if Unresolved(r.0.db.jobs[id]) {
        MineAgrees(r.0, id);
      }
    } else {
      RecordFailureKeeps(w.(running := env.projection.left), id, ApplyNotConfirmed, env.later, env.failure);
      MineAgrees(r.0, id);
    }
  }

  lemma ClaimAndReconcileKeeps(w: World, id: JobId, env: Env)
    requires Mine(w.db, id) && w.db.jobs[id].attempts < w.db.jobs[id].maxAttempts
    ensures var r := ClaimAndReconcile(w, id, env);
            && WorldInv(r.0) && Frame(w.db, r.0.db, id)
            && (Finalized(r.1) ==> !Blocked(r.0.db))
  {
    hide Inv, ReconcileClaimed, Blocked, GatewayQueue.Claimed;
    ClaimKeeps(w.db, id, env.now);
    var claimed := w.(db := After(w.db, GatewayQueue.Claimed(w.db, id, env.now), env.claim));
    MineAgrees(claimed, id);
    if env.claim.Acked? {
      ReconcileClaimedKeeps(claimed, id, env);
      FrameTrans(w.db, claimed.db, ReconcileClaimed(claimed, id, env).0.db, id);
    }
  }

  // ----------------------------------------------------- the first commits

  /** Adding the only unresolved row. */
  lemma AddedKeeps(db: Db, j: Job)
    requires Inv(db) && !Blocked(db) && !HasKey(db, j.key) && Unresolved(j)
    requires JobOk(db, j)
    ensures Mine(db.(jobs := db.jobs[db.nextJob := j], nextJob := db.nextJob + 1), db.nextJob)
  {
    hide PurchaseKey, ReleaseKey, Routed, Settled, Unsettled, JobOk;
    var db' := db.(jobs := db.jobs[db.nextJob := j], nextJob := db.nextJob + 1);
    assert db.nextJob !in db.jobs;
    AddedKeys(db, j);
    forall k | k in db'.jobs
      ensures JobOk(db', db'.jobs[k])
    {
      SameTables(db, db', db'.jobs[k]);
    }
  }

  lemma AddedKeys(db: Db, j: Job)
    requires db.nextJob !in db.jobs
    ensures var db' := db.(jobs := db.jobs[db.nextJob := j], nextJob := db.nextJob + 1);
            forall key :: HasKey(db', key) <==> HasKey(db, key) || key == j.key
  {
    var db' := db.(jobs := db.jobs[db.nextJob := j], nextJob := db.nextJob + 1);
    assert db.nextJob in db'.jobs && db'.jobs[db.nextJob] == j;
    forall key | HasKey(db, key)
      ensures HasKey(db', key)
    {
      var k :| k in db.jobs && db.jobs[k].key == key;
      assert k in db'.jobs && db'.jobs[k].key == key;
    }
  }

  lemma SameTables(db: Db, db': Db, j: Job)
    requires db'.authority == db.authority && db'.nextBinding == db.nextBinding && db'.subscriptions == db.subscriptions
    ensures JobOk(db', j) <==> JobOk(db, j)
  {
  }

  /** The default key of releasing a bound egress is new. */
  lemma ReleaseKeyIsFresh(db: Db, s: nat)
    requires Inv(db) && s in db.authority.bindings
    ensures !HasKey(db, ReleaseKey(s, db.authority.bindings[s].id))
  {
    hide PurchaseKey, ReleaseKey, TablesOk, KeysUnique, OneUnresolved;
    var b := db.authority.bindings[s].id;
    forall k | k in db.jobs
      ensures db.jobs[k].key != ReleaseKey(s, b)
    {
      var j := db.jobs[k];
      assert JobOk(db, j);
      KeysAreDistinct(j.subscription, s, b, b);
      if j.key.kind.RELEASE? && Custom(j.key.operationId) {
        assert ReleaseKey(s, b) != Key(RELEASE, j.key.operationId);
      } else if j.key.kind.RELEASE? {
        var c :| Gone(db, j.subscription, c) && j.key == ReleaseKey(j.subscription, c);
        KeysAreDistinct(j.subscription, s, c, b);
      }
    }
  }

  /** The key of a release that is a new operation is new. */
  lemma NewReleaseIsFresh(db: Db, s: nat, operation: Option<string>)
    requires Inv(db) && s in db.authority.bindings
    requires var key := ReleaseKeyOf(db, s, operation);
             || key == ReleaseKey(s, db.authority.bindings[s].id)
             || (Custom(key.operationId) && FindKey(db, key, 0).None?)
    ensures !HasKey(db, ReleaseKeyOf(db, s, operation))
  {
    hide PurchaseKey, ReleaseKey, Custom, TablesOk, KeysUnique, OneUnresolved;
    ReleaseKeyIsFresh(db, s);
    FindKeyExact(db, ReleaseKeyOf(db, s, operation));
  }

  lemma AuthorityKeeps(db: Db, a: Authority, nextBinding: nat)
    requires Inv(db) && db.nextBinding <= nextBinding
    requires forall s, b | Gone(db, s, b) :: Gone(db.(authority := a, nextBinding := nextBinding), s, b)
    requires forall s | s in a.bindings :: a.bindings[s].id < nextBinding
    requires forall s | Routed(a, s) :: Routed(db.authority, s)
    ensures Inv(db.(authority := a, nextBinding := nextBinding))
  {
  }

  lemma SameKeys(db: Db, db': Db)
    requires db'.jobs == db.jobs
    ensures forall key :: HasKey(db', key) <==> HasKey(db, key)
  {
  }

  lemma ReleasedAuthority(db: Db, s: nat)
    requires Inv(db) && s in db.authority.bindings
    ensures var db' := db.(authority := Released(db.authority, s));
            Inv(db') && Gone(db', s, db.authority.bindings[s].id)
  {
    hide JobsOk, KeysUnique, OneUnresolved, HasKey, PurchaseKey, Unsettled;
    var a := Released(db.authority, s);
    forall t | Routed(a, t)
      ensures Routed(db.authority, t)
    {
      var i :| 0 <= i < |a.routes| && a.routes[i].active && a.routes[i].subscription == t;
      assert db.authority.routes[i].active && db.authority.routes[i].subscription == t;
    }
    AuthorityKeeps(db, a, db.nextBinding);
    assert db.(authority := a, nextBinding := db.nextBinding) == db.(authority := a);
  }

  lemma ReleaseProposedKeeps(db: Db, s: nat, operation: Option<string>, now: int)
    requires Inv(db) && !Blocked(db) && s in db.authority.bindings && s in db.subscriptions
    requires var key := ReleaseKeyOf(db, s, operation);
             || key == ReleaseKey(s, db.authority.bindings[s].id)
             || (Custom(key.operationId) && FindKey(db, key, 0).None?)
    ensures var p := ReleaseProposed(db, s, operation, now);
            && Mine(p.0, p.1) && p.1 == db.nextJob && p.0.jobs[p.1].attempts < p.0.jobs[p.1].maxAttempts
            && HasKey(p.0, ReleaseKeyOf(db, s, operation)) && p.0.authority == Released(db.authority, s)
            && p.0.subscriptions == db.subscriptions
            && (forall k | k in db.jobs :: k in p.0.jobs && p.0.jobs[k] == db.jobs[k])
  {
    hide PurchaseKey, ReleaseKey, Settled, Unsettled, Released, Gone, TablesOk, HasKey, Custom;
    var key := ReleaseKeyOf(db, s, operation);
    var db' := db.(authority := Released(db.authority, s));
    NewReleaseIsFresh(db, s, operation);
    ReleasedAuthority(db, s);
    SameKeys(db, db');
    FindKeyExact(db', key);
    KindOfKeys(s, db.authority.bindings[s].id);
    var j := Job(key, s, Pending, 0, RETRY_LIMIT, now, None, None);
    assert JobOk(db', j);
    AddedKeeps(db', j);
    AddedKeys(db', j);
  }

  lemma KindOfKeys(s: nat, b: nat)
    ensures ReleaseKey(s, b).kind.RELEASE? && PurchaseKey(s).kind.PURCHASE?
  {
  }

  /** Rewriting the row of a subscription that is not settled and stays so. */
  lemma RowKeeps(db: Db, s: nat, row: Subscription)
    requires Inv(db) && Unsettled(row)
    requires s in db.subscriptions ==> Unsettled(db.subscriptions[s])
    ensures Inv(db.(subscriptions := db.subscriptions[s := row]))
  {
    hide PurchaseKey, ReleaseKey, Routed;
    var db' := db.(subscriptions := db.subscriptions[s := row]);
    SameKeys(db, db');
    forall k | k in db.jobs
      ensures JobOk(db', db.jobs[k])
    {
      assert JobOk(db, db.jobs[k]);
      if db.jobs[k].key.kind.RELEASE? {
        ReleasedStays(db, db', db.jobs[k]);
      }
    }
  }

  lemma RowAgrees(w: World, s: nat, row: Subscription)
    requires WorldInv(w) && Unsettled(row)
    requires s in w.db.subscriptions ==> Unsettled(w.db.subscriptions[s])
    ensures WorldInv(w.(db := w.db.(subscriptions := w.db.subscriptions[s := row])))
  {
    hide Inv, Snapshot;
    RowKeeps(w.db, s, row);
  }

  /** The payment of a new order. */
  lemma StartedKeeps(w: World, s: nat, c: Commit)
    requires WorldInv(w) && !HasKey(w.db, PurchaseKey(s))
    ensures var w' := w.(db := After(w.db, Started(w.db, s), c));
            && WorldInv(w') && w'.db.jobs == w.db.jobs && w'.db.authority == w.db.authority && w'.db.nextJob == w.db.nextJob
            && (c.Lands() ==> s in w'.db.subscriptions && Unsettled(w'.db.subscriptions[s]))
            && !HasKey(w'.db, PurchaseKey(s))
  {
    hide Snapshot, HasKey, JobsOk, KeysUnique, OneUnresolved, Routed;
    RowAgrees(w, s, Started(w.db, s).subscriptions[s]);
    SameKeys(w.db, Started(w.db, s));
  }

  lemma NewOrderIsUnrouted(db: Db, s: nat)
    requires Inv(db) && !HasKey(db, PurchaseKey(s))
    ensures !Routed(db.authority, s)
  {
  }

  lemma BoundShape(db: Db, r: Request)
    requires Bound(db, r).Some?
    ensures var b := Bound(db, r).value;
            && r.subscription in b.authority.bindings
            && b == db.(authority := db.authority.(bindings := db.authority.bindings[r.subscription := b.authority.bindings[r.subscription]]),
                        nextBinding := b.nextBinding)
            && db.nextBinding <= b.nextBinding && b.authority.routes == db.authority.routes
            && (if r.subscription in db.authority.bindings
                then b.authority.bindings[r.subscription].id == db.authority.bindings[r.subscription].id
                else b.authority.bindings[r.subscription].id == db.nextBinding && b.nextBinding == db.nextBinding + 1)
  {
  }

  /** An egress binding of an unrouted subscription changes nothing a gateway could see. */
  lemma BoundKeeps(db: Db, r: Request)
    requires Inv(db) && !Routed(db.authority, r.subscription) && Bound(db, r).Some?
    ensures var b := Bound(db, r).value;
            Inv(b) && Snapshot(b.authority) == Snapshot(db.authority) && b.jobs == db.jobs
            && !Routed(b.authority, r.subscription)
  {
    hide JobsOk, KeysUnique, OneUnresolved, HasKey, PurchaseKey, Unsettled, Collect, Bound;
    BoundShape(db, r);
    var b := Bound(db, r).value;
    forall t | Routed(b.authority, t)
      ensures Routed(db.authority, t)
    {
      var i :| 0 <= i < |b.authority.routes| && b.authority.routes[i].active && b.authority.routes[i].subscription == t;
      assert db.authority.routes[i].active;
    }
    forall s, c | Gone(db, s, c)
      ensures Gone(db.(authority := b.authority, nextBinding := b.nextBinding), s, c)
    {
    }
    AuthorityKeeps(db, b.authority, b.nextBinding);
    UnroutedBindingIsInvisible(db.authority, r.subscription, b.authority.bindings[r.subscription], |db.authority.routes|);
  }

  lemma EnsuredRoutes(a: Authority, r: Request)
    requires !Routed(a, r.subscription)
    ensures EnsureRoute(a, r) == a.(routes := a.routes + [RouteOf(r)])
    ensures forall t :: Routed(EnsureRoute(a, r), t) <==> Routed(a, t) || t == r.subscription
  {
    hide RouteOf;
    FindRouteExact(a, r.subscription);
    var a' := EnsureRoute(a, r);
    assert a'.routes[|a.routes|] == RouteOf(r);
    assert RouteOf(r).active && RouteOf(r).subscription == r.subscription by {
      RouteIsActive(r);
    }
    forall t
      ensures Routed(a', t) <==> Routed(a, t) || t == r.subscription
    {
      if Routed(a, t) {
        var i :| 0 <= i < |a.routes| && a.routes[i].active && a.routes[i].subscription == t;
        assert a'.routes[i] == a.routes[i];
      }
      if Routed(a', t) && t != r.subscription {
        var i :| 0 <= i < |a'.routes| && a'.routes[i].active && a'.routes[i].subscription == t;
        assert a'.routes[i] == a.routes[i];
      }
    }
  }

  lemma RouteIsActive(r: Request)
    ensures RouteOf(r).active && RouteOf(r).subscription == r.subscription
  {
  }

  /** Adding the only unresolved row together with the routes of its subscription. */
  lemma PurchaseRowKeeps(db: Db, a: Authority, s: nat, now: int)
    requires Inv(db) && !Blocked(db) && !HasKey(db, PurchaseKey(s))
    requires s in db.subscriptions && Unsettled(db.subscriptions[s])
    requires a.bindings == db.authority.bindings
    requires forall t | Routed(a, t) :: Routed(db.authority, t) || t == s
    ensures var p := Enqueued(db.(authority := a), PurchaseKey(s), s, now);
            && p.1 == db.nextJob && Mine(p.0, p.1) && p.0.jobs[p.1].attempts < p.0.jobs[p.1].maxAttempts
            && (forall key :: HasKey(p.0, key) <==> HasKey(db, key) || key == PurchaseKey(s))
            && p.0.authority == a && p.0.subscriptions == db.subscriptions && p.0.nextBinding == db.nextBinding
            && p.0.jobs[p.1].subscription == s && p.0.jobs[p.1].key == PurchaseKey(s)
            && (forall k | k in db.jobs :: k in p.0.jobs && p.0.jobs[k] == db.jobs[k])
  {
    hide PurchaseKey, ReleaseKey, Routed, Settled, Unsettled, Gone, ReleaseNamed;
    var base := db.(authority := a);
    SameKeys(db, base);
    FindKeyExact(base, PurchaseKey(s));
    KindOfKeys(s, 0);
    var j := Job(PurchaseKey(s), s, Pending, 0, RETRY_LIMIT, now, None, None);
    AddedKeeps(db, j);
    var db' := Enqueued(base, PurchaseKey(s), s, now).0;
    var before := db.(jobs := db.jobs[db.nextJob := j], nextJob := db.nextJob + 1);
    assert db' == before.(authority := a);
    AddedKeys(db, j);
    SameKeys(before, db');
    RoutesKeep(before, a, s);
  }

  lemma RoutesKeep(db: Db, a: Authority, s: nat)
    requires Inv(db) && HasKey(db, PurchaseKey(s))
    requires a.bindings == db.authority.bindings
    requires forall t | Routed(a, t) :: Routed(db.authority, t) || t == s
    ensures Inv(db.(authority := a))
  {
  }

  /** The first commit of a new order: intent and route appear together. */
  lemma PurchaseProposedKeeps(db: Db, r: Request, now: int)
    requires Inv(db) && !Blocked(db) && !HasKey(db, PurchaseKey(r.subscription))
    requires r.subscription in db.subscriptions && Unsettled(db.subscriptions[r.subscription])
    requires PurchaseProposed(db, r, now).Some?
    ensures var p := PurchaseProposed(db, r, now).value;
            && p.1 == db.nextJob && Mine(p.0, p.1) && p.0.jobs[p.1].attempts < p.0.jobs[p.1].maxAttempts
            && p.0.jobs[p.1].subscription == r.subscription
            && (forall key :: HasKey(p.0, key) <==> HasKey(db, key) || key == PurchaseKey(r.subscription))
            && Routed(p.0.authority, r.subscription)
            && p.0.authority == EnsureRoute(Bound(db, r).value.authority, r)
            && p.0.nextBinding == Bound(db, r).value.nextBinding
            && p.0.subscriptions == db.subscriptions
            && p.0.jobs[p.1].key == PurchaseKey(r.subscription)
            && (forall k | k in db.jobs :: k in p.0.jobs && p.0.jobs[k] == db.jobs[k])
  {
    hide PurchaseKey, Routed, Unsettled, Snapshot, JobsOk, KeysUnique, OneUnresolved, TablesOk, HasKey, Bound, EnsureRoute, Enqueued;
    NewOrderIsUnrouted(db, r.subscription);
    BoundShape(db, r);
    BoundKeeps(db, r);
    var b := Bound(db, r).value;
    SameKeys(db, b);
    EnsuredRoutes(b.authority, r);
    PurchaseRowKeeps(b, EnsureRoute(b.authority, r), r.subscription, now);
  }

  // ------------------------------------------------------------ whole steps

  /** A finalized row is never touched again. */
  ghost predicate Final(db: Db, db': Db) {
    forall k | k in db.jobs && db.jobs[k].status.Succeeded? :: k in db'.jobs && db'.jobs[k] == db.jobs[k]
  }

  lemma FrameIsFinal(base: Db, db: Db, db': Db, id: JobId)
    requires Frame(db, db', id) && Final(base, db)
    requires id in base.jobs ==> Unresolved(base.jobs[id])
    ensures Final(base, db')
  {
  }

  lemma RecoverKeeps(w: World, env: Env)
    requires WorldInv(w)
    ensures WorldInv(Recover(w, env).0) && Final(w.db, Recover(w, env).0.db)
  {
    hide Snapshot, ClaimAndReconcile, JobsOk, KeysUnique, OneUnresolved, TablesOk;
    var first := FirstClaimable(w.db, env.now, 0);
    if first.Some? {
      ClaimAndReconcileKeeps(w, first.value, env);
      FrameIsFinal(w.db, w.db, Recover(w, env).0.db, first.value);
    }
  }

  /** What a first commit leaves while nothing has been projected yet. */
  lemma CommittedKeeps(w: World, proposed: Db, id: JobId, c: Commit)
    requires WorldInv(w) && Mine(proposed, id)
    ensures WorldInv(w.(db := After(w.db, proposed, c)))
  {
    hide Inv, Snapshot, Blocked;
    MineAgrees(w.(db := proposed), id);
  }

  lemma ReleaseKeeps(w: World, s: nat, operation: Option<string>, hasGateway: bool, first: Commit, env: Env)
    requires WorldInv(w) && NewOperation(w.db, ReleaseStep(s, operation, hasGateway, first, env))
    ensures var r := Release(w, s, operation, hasGateway, first, env);
            WorldInv(r.0) && Final(w.db, r.0.db)
  {
    hide Snapshot, ClaimAndReconcile, Inv, ReleaseProposed, Custom, ReleaseKeyOf, ReleaseKey;
    if s in w.db.subscriptions && s in w.db.authority.bindings && !Blocked(w.db) {
      ReleaseProposedKeeps(w.db, s, operation, env.now);
      var (proposed, id) := ReleaseProposed(w.db, s, operation, env.now);
      CommittedKeeps(w, proposed, id, first);
      assert id !in w.db.jobs by {
        NextJobIsNew(w.db);
      }
      if first.Acked? && hasGateway {
        ClaimAndReconcileKeeps(w.(db := proposed), id, env);
        FrameIsFinal(w.db, proposed, ClaimAndReconcile(w.(db := proposed), id, env).0.db, id);
      }
    }
  }

  lemma NextJobIsNew(db: Db)
    requires Inv(db)
    ensures db.nextJob !in db.jobs
  {
  }

  /** Rewriting only the row of one unsettled subscription, without settling it. */
  lemma OneRow(w: World, s: nat, w': World)
    requires WorldInv(w) && s in w.db.subscriptions && Unsettled(w.db.subscriptions[s])
    requires s in w'.db.subscriptions && Unsettled(w'.db.subscriptions[s])
    requires w'.running == w.running
    requires w'.db == w.db.(subscriptions := w.db.subscriptions[s := w'.db.subscriptions[s]])
    ensures WorldInv(w')
  {
    hide Inv, Snapshot, Blocked;
    RowAgrees(w, s, w'.db.subscriptions[s]);
  }

  lemma CompensateKeeps(w: World, s: nat, env: PurchaseEnv)
    requires WorldInv(w) && s in w.db.subscriptions && Unsettled(w.db.subscriptions[s])
    ensures var r := Compensate(w, s, env);
            WorldInv(r.0) && r.0.db.jobs == w.db.jobs && r.0.db.authority == w.db.authority && r.0.running == w.running
  {
    hide Inv, Snapshot, Blocked;
    OneRow(w, s, Compensate(w, s, env).0);
  }

  lemma MarkFirstUnknownKeeps(w: World, s: nat, env: PurchaseEnv)
    requires WorldInv(w) && s in w.db.subscriptions && Unsettled(w.db.subscriptions[s])
    ensures var r := MarkFirstUnknown(w, s, env);
            WorldInv(r.0) && r.0.db.jobs == w.db.jobs && r.0.db.authority == w.db.authority
  {
    hide Inv, Snapshot, Blocked;
    OneRow(w, s, MarkFirstUnknown(w, s, env).0);
  }

  /** Exact classification of the first commit. Both answers are exact for every outcome of the
      commit precisely when the operation is new: no row has its key and no route its subscription. */
  lemma FirstCommitClassifiedExactly(db: Db, proposed: Db, key: Key, s: nat)
    requires forall id | id in db.jobs :: id < db.nextJob
    requires forall id | id in proposed.jobs :: id < proposed.nextJob
    requires HasKey(proposed, key) && Routed(proposed.authority, s)
    ensures (forall c: Commit ::
               var db' := After(db, proposed, c);
               (ClassifyFirst(db', key, s).LANDED? <==> c.Lands()) && (ClassifyFirst(db', key, s).ABSENT? <==> !c.Lands()))
            <==> !HasKey(db, key) && !Routed(db.authority, s)
  {
    FindKeyExact(db, key);
    FindKeyExact(proposed, key);
    FindRouteExact(db.authority, s);
    FindRouteExact(proposed.authority, s);
    assert After(db, proposed, LostAbsent) == db;
    if !(!HasKey(db, key) && !Routed(db.authority, s)) {
      assert !ClassifyFirst(db, key, s).ABSENT?;
    }
  }

  /** What a purchase may conclude: compensation only when its intent is not durable, success only
      when the gateway confirmed the committed routes. */
  ghost predicate HonestPurchase(w: World, r: Request, e: (World, PurchaseOutcome)) {
    && (e.1.Compensated? ==>
          !HasKey(e.0.db, PurchaseKey(r.subscription)) && e.0.db.authority == w.db.authority && e.0.running == w.running)
    && (e.1.Provisioned? ==>
          HasKey(e.0.db, PurchaseKey(r.subscription)) && !Blocked(e.0.db))
  }

  lemma AfterFirstCommitKeeps(w: World, proposed: Db, id: JobId, r: Request, env: PurchaseEnv)
    requires WorldInv(w) && !HasKey(w.db, PurchaseKey(r.subscription))
    requires Mine(proposed, id) && id == w.db.nextJob && proposed.jobs[id].attempts < proposed.jobs[id].maxAttempts
    requires HasKey(proposed, PurchaseKey(r.subscription)) && Routed(proposed.authority, r.subscription)
    requires r.subscription in w.db.subscriptions && Unsettled(w.db.subscriptions[r.subscription])
    requires proposed.subscriptions == w.db.subscriptions && Final(w.db, proposed)
    ensures var e := AfterFirstCommit(w.(db := After(w.db, proposed, env.first)), id, r, env);
            WorldInv(e.0) && Final(w.db, e.0.db) && HonestPurchase(w, r, e)
  {
    hide Snapshot, ClaimAndReconcile, Inv, Compensate, MarkFirstUnknown, Blocked, ClassifyFirst, PurchaseKey, Unsettled, Routed;
    var s := r.subscription;
    var key := PurchaseKey(s);
    CommittedKeeps(w, proposed, id, env.first);
    var committed := w.(db := After(w.db, proposed, env.first));
    if env.first.Acked? {
      NextJobIsNew(w.db);
      var e := ClaimAndReconcile(committed, id, env.run);
      ClaimAndReconcileKeeps(committed, id, env.run);
      FrameIsFinal(w.db, proposed, e.0.db, id);
      KeysStay(proposed, e.0.db, id);
    } else if env.first.Raises() {
      MarkFirstUnknownKeeps(committed, s, env);
      CompensateKeeps(committed, s, env);
      if env.observerWorks {
        NewOrderIsUnrouted(w.db, s);
        RowsBelow(w.db);
        RowsBelow(proposed);
        FirstCommitClassifiedExactly(w.db, proposed, key, s);
        assert ClassifyFirst(After(w.db, proposed, env.first), key, s).ABSENT? <==> !env.first.Lands();
      }
      SameKeys(committed.db, Compensate(committed, s, env).0.db);
      OutcomeOfReview(committed, s, env);
    }
  }

  lemma OutcomeOfReview(w: World, s: nat, env: PurchaseEnv)
    requires s in w.db.subscriptions
    ensures !MarkFirstUnknown(w, s, env).1.Compensated? && !MarkFirstUnknown(w, s, env).1.Provisioned?
    ensures !Compensate(w, s, env).1.Provisioned?
  {
  }

  lemma RowsBelow(db: Db)
    requires Inv(db)
    ensures forall id | id in db.jobs :: id < db.nextJob
  {
  }

  lemma PurchaseKeeps(w: World, r: Request, env: PurchaseEnv)
    requires WorldInv(w) && !HasKey(w.db, PurchaseKey(r.subscription))
    ensures var e := Purchase(w, r, env);
            WorldInv(e.0) && Final(w.db, e.0.db) && HonestPurchase(w, r, e)
  {
    hide Snapshot, Inv, Compensate, Blocked, PurchaseKey, Unsettled, Routed, AfterFirstCommit, PurchaseProposed, HasKey, GatewayQueue.Started;
    StartedKeeps(w, r.subscription, env.paid);
    var started := w.(db := After(w.db, GatewayQueue.Started(w.db, r.subscription), env.paid));
    if env.paid.Acked? {
      CompensateKeeps(started, r.subscription, env);
      OutcomeOfReview(started, r.subscription, env);
      SameKeys(started.db, Compensate(started, r.subscription, env).0.db);
      if env.locked && !Blocked(started.db) && env.flushed && PurchaseProposed(started.db, r, env.run.now).Some? {
        PurchaseProposedKeeps(started.db, r, env.run.now);
        var (proposed, id) := PurchaseProposed(started.db, r, env.run.now).value;
        AfterFirstCommitKeeps(started, proposed, id, r, env);
      }
    }
  }

  lemma HoldKeeps(w: World, r: Request, paid: Commit, business: Commit)
    requires WorldInv(w) && !HasKey(w.db, PurchaseKey(r.subscription))
    ensures var w' := Hold(w, r, paid, business);
            && WorldInv(w') && Final(w.db, w'.db) && w'.db.jobs == w.db.jobs
            && Snapshot(w'.db.authority) == Snapshot(w.db.authority) && w'.running == w.running
  {
    hide Snapshot, Inv, PurchaseKey, Unsettled, Routed, Bound, HasKey, GatewayQueue.Started;
    StartedKeeps(w, r.subscription, paid);
    var started := w.(db := After(w.db, GatewayQueue.Started(w.db, r.subscription), paid));
    var bound := Bound(started.db, r);
    if paid.Acked? && bound.Some? {
      NewOrderIsUnrouted(started.db, r.subscription);
      BoundKeeps(started.db, r);
      BoundShape(started.db, r);
      UnsettledManual(bound.value, r.subscription);
      RowAgrees(started.(db := bound.value), r.subscription, Manual(bound.value, r.subscription).subscriptions[r.subscription]);
    }
  }

  lemma UnsettledManual(db: Db, s: nat)
    requires s in db.subscriptions && Unsettled(db.subscriptions[s])
    ensures Unsettled(Manual(db, s).subscriptions[s])
  {
  }

  lemma NextKeeps(w: World, step: Step)
    requires WorldInv(w) && NewOperation(w.db, step)
    ensures WorldInv(Next(w, step)) && Final(w.db, Next(w, step).db)
  {
    hide Purchase, Hold, Release, Recover, Snapshot, JobsOk, KeysUnique, OneUnresolved, TablesOk, Blocked;
    RowsBelow(w.db);
    match step {
      case PurchaseStep(r, env) =>
        FindKeyExact(w.db, PurchaseKey(r.subscription));
        PurchaseKeeps(w, r, env);
      case HoldStep(r, paid, business) =>
        FindKeyExact(w.db, PurchaseKey(r.subscription));
        HoldKeeps(w, r, paid, business);
      case ReleaseStep(s, operation, hasGateway, first, env) => ReleaseKeeps(w, s, operation, hasGateway, first, env);
      case RecoverStep(env) => RecoverKeeps(w, env);
    }
  }

  // -------------------------------------------------------------- theorems

  /** Commit-first agreement. Over every interleaving of purchases, held purchases, releases and
      recoveries that are new operations, with lossy commits and failing or half-done applies: at most one intent is
      unresolved, a finalized intent stays as it is, and whenever none is unresolved the gateway
      routes exactly the snapshot of the committed tables. */
  lemma {:induction false} CommitFirstAgreement(w: World, steps: seq<Step>)
    requires WorldInv(w) && NewOperations(w, steps)
    ensures var w' := Exec(w, steps);
            && Final(w.db, w'.db)
            && (forall i, j | i in w'.db.jobs && j in w'.db.jobs && Unresolved(w'.db.jobs[i]) && Unresolved(w'.db.jobs[j]) :: i == j)
            && (!Blocked(w'.db) ==>
                  Snapshot(w'.db.authority).Success? && w'.running == Some(Snapshot(w'.db.authority).value))
            && WorldInv(w')
    decreases |steps|
  {
    hide Next, Snapshot, JobsOk, KeysUnique, TablesOk;
    if steps != [] {
      NextKeeps(w, steps[0]);
      CommitFirstAgreement(Next(w, steps[0]), steps[1..]);
    }
  }

  /** No orders, no routes, and a gateway that routes nothing. */
  function EmptyWorld(endpoints: map<nat, Endpoint>): World {
    World(Db(Authority([], endpoints, map[]), map[], 0, 0, map[]), Some(Desired(map[], [])))
  }

  /** The queue and an empty gateway start in agreement. */
  lemma EmptyWorldAgrees(endpoints: map<nat, Endpoint>)
    ensures WorldInv(EmptyWorld(endpoints))
  {
    var a := Authority([], endpoints, map[]);
    assert Snapshot(a) == Success(Finish(Tables(map[], map[])));
    assert Finish(Tables(map[], map[])).outbounds == [];
  }

  /** Every reachable world agrees: whatever has been purchased, released and recovered since the
      beginning, a gateway without unresolved intents routes what is committed. */
  lemma ReachableWorldsAgree(endpoints: map<nat, Endpoint>, steps: seq<Step>)
    requires NewOperations(EmptyWorld(endpoints), steps)
    ensures Agrees(Exec(EmptyWorld(endpoints), steps)) && OneUnresolved(Exec(EmptyWorld(endpoints), steps).db)
  {
    hide Exec, NewOperations, Agrees;
    EmptyWorldAgrees(endpoints);
    CommitFirstAgreement(EmptyWorld(endpoints), steps);
  }

  /** A purchase intent settles its subscription, order and run together, and nothing else does: a
      paid subscription is active exactly when its own intent has succeeded. */
  lemma ActiveIffFinalized(w: World, steps: seq<Step>, s: nat)
    requires WorldInv(w) && NewOperations(w, steps) && s in Exec(w, steps).db.subscriptions
    ensures var db := Exec(w, steps).db;
            && (Settled(db.subscriptions[s]) <==>
                exists id :: id in db.jobs && db.jobs[id].key == PurchaseKey(s) && db.jobs[id].status.Succeeded?)
            && (Settled(db.subscriptions[s]) || Unsettled(db.subscriptions[s]))
  {
    hide NewOperations, Exec, Snapshot, Blocked, OneUnresolved;
    CommitFirstAgreement(w, steps);
    ActiveIff(Exec(w, steps).db, s);
  }

  lemma ActiveIff(db: Db, s: nat)
    requires Inv(db) && s in db.subscriptions
    ensures Settled(db.subscriptions[s]) <==>
            exists id :: id in db.jobs && db.jobs[id].key == PurchaseKey(s) && db.jobs[id].status.Succeeded?
    ensures Settled(db.subscriptions[s]) || Unsettled(db.subscriptions[s])
  {
    hide ReleaseNamed;
    forall id | id in db.jobs && db.jobs[id].key == PurchaseKey(s)
      ensures db.jobs[id].subscription == s
      ensures db.jobs[id].status.Succeeded? <==> Settled(db.subscriptions[s])
      ensures !db.jobs[id].status.Succeeded? <==> Unsettled(db.subscriptions[s])
    {
      assert JobOk(db, db.jobs[id]);
      KeysAreDistinct(s, db.jobs[id].subscription, 0, 0);
    }
    if HasKey(db, PurchaseKey(s)) {
      var id :| id in db.jobs && db.jobs[id].key == PurchaseKey(s);
    }
  }

  /** An unresolved intent that has used up its attempts. */
  ghost predicate Exhausted(db: Db, id: JobId) {
    id in db.jobs && Unresolved(db.jobs[id]) && db.jobs[id].attempts >= db.jobs[id].maxAttempts
  }

  lemma ExhaustedStep(w: World, step: Step, id: JobId)
    requires WorldInv(w) && NewOperation(w.db, step) && Exhausted(w.db, id)
    ensures var w' := Next(w, step);
            && w'.db.jobs == w.db.jobs && w'.running == w.running
            && Snapshot(w'.db.authority) == Snapshot(w.db.authority)
  {
    hide Snapshot, JobsOk, KeysUnique, TablesOk, Unsettled, GatewayQueue.Started, Compensate, ClaimAndReconcile, PurchaseProposed, Hold;
    BlockedByMine(w.db, id);
    RowsBelow(w.db);
    match step {
      case PurchaseStep(r, env) =>
        FindKeyExact(w.db, PurchaseKey(r.subscription));
        StartedKeeps(w, r.subscription, env.paid);
        var started := w.(db := After(w.db, GatewayQueue.Started(w.db, r.subscription), env.paid));
        BlockedByMine(started.db, id);
        if env.paid.Acked? {
          CompensateKeeps(started, r.subscription, env);
        }
      case HoldStep(r, paid, business) =>
        FindKeyExact(w.db, PurchaseKey(r.subscription));
        HoldKeeps(w, r, paid, business);
      case ReleaseStep(s, operation, hasGateway, first, env) =>
      case RecoverStep(env) =>
    }
  }

  /** An exhausted intent is never claimed again, and it keeps every other writer out: until someone
      intervenes, the routes and the gateway stay as they are. */
  lemma {:induction false} ExhaustedBlocksEveryWriter(w: World, steps: seq<Step>, id: JobId)
    requires WorldInv(w) && NewOperations(w, steps) && Exhausted(w.db, id)
    ensures var w' := Exec(w, steps);
            && w'.db.jobs == w.db.jobs && w'.running == w.running
            && Snapshot(w'.db.authority) == Snapshot(w.db.authority)
    decreases |steps|
  {
    hide Next, Snapshot, JobsOk, KeysUnique, TablesOk, OneUnresolved;
    if steps != [] {
      NextKeeps(w, steps[0]);
      ExhaustedStep(w, steps[0], id);
      ExhaustedBlocksEveryWriter(Next(w, steps[0]), steps[1..], id);
    }
  }

  /** Progress. A claimable intent that meets a sound snapshot and a confirming gateway is finalized:
      nothing stays unresolved, and the gateway routes the committed tables. */
  lemma CleanRecoverySettles(w: World, env: Env)
    requires WorldInv(w) && FirstClaimable(w.db, env.now, 0).Some? && Snapshot(w.db.authority).Success?
    requires env.claim.Acked? && env.prepared && env.projection.Confirmed? && env.finalize.Acked?
    ensures var w' := Recover(w, env).0;
            !Blocked(w'.db) && w'.running == Some(Snapshot(w.db.authority).value)
  {
    hide Snapshot, KeysUnique, TablesOk, Blocked;
    var id := FirstClaimable(w.db, env.now, 0).value;
    ClaimAndReconcileKeeps(w, id, env);
    assert JobOk(w.db, w.db.jobs[id]);
  }

  // --------------------------------------------------------- reused keys

  /** A first commit whose key is reused. The row found is finalized already, so nothing marks the
      new routes as unprojected: agreement survives the commit exactly when the key is new or the
      routes do not change. */
  lemma AgreementNeedsFreshKey(w: World, a: Authority, key: Key, s: nat, now: int)
    requires WorldInv(w) && !Blocked(w.db)
    ensures var db' := Enqueued(w.db.(authority := a), key, s, now).0;
            Agrees(w.(db := db')) <==> !HasKey(w.db, key) || Snapshot(a) == Snapshot(w.db.authority)
  {
    hide Snapshot, KeysUnique, OneUnresolved, TablesOk;
    var base := w.db.(authority := a);
    SameKeys(w.db, base);
    RowsBelow(w.db);
    FindKeyExact(base, key);
    var db' := Enqueued(base, key, s, now).0;
    if !HasKey(w.db, key) {
      BlockedByMine(db', w.db.nextJob);
    } else {
      assert db' == base;
      assert !Blocked(db');
    }
  }
}
