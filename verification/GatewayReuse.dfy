/** Clean purchases and releases, and what happens when a release reuses an operation id
    (backend/app/workers/accounting_sync.py, release_egress; backend/app/infra/gateway_reconciliation.py,
    enqueue_gateway_reconciliation). */
module GatewayReuse {
  import opened Durable
  import opened GatewayQueue
  import opened GatewayTheorems
  import opened Limits
  import opened RoutingSnapshot
  import opened Strings
  import opened Wrappers

  // ------------------------------------------------------------- progress

  /** An attempt in which nothing goes wrong. */
  predicate CleanEnv(env: Env) {
    env.claim.Acked? && env.prepared && env.projection.Confirmed? && env.finalize.Acked?
  }

  lemma CleanAttempt(w: World, id: JobId, env: Env)
    requires Mine(w.db, id) && w.db.jobs[id].attempts < w.db.jobs[id].maxAttempts
    requires Snapshot(w.db.authority).Success? && CleanEnv(env)
    ensures var r := ClaimAndReconcile(w, id, env);
            && WorldInv(r.0) && Frame(w.db, r.0.db, id) && !Blocked(r.0.db) && Finalized(r.1)
            && (forall key :: HasKey(r.0.db, key) <==> HasKey(w.db, key))
            && PurchaseSignal(r.1).Provisioned?
  {
    hide Snapshot, KeysUnique, OneUnresolved, TablesOk, Blocked, HasKey;
    ClaimAndReconcileKeeps(w, id, env);
    KeysStay(w.db, ClaimAndReconcile(w, id, env).0.db, id);
    assert JobOk(w.db, w.db.jobs[id]);
  }

  /** The routes a purchase commits. */
  function PurchasedAuthority(db: Db, r: Request): Authority
    requires Bound(db, r).Some?
  {
    EnsureRoute(Bound(db, r).value.authority, r)
  }

  /** A new order in which nothing goes wrong is provisioned: the gateway routes it before the purchase
      reports success. */
  lemma CleanPurchaseIsProvisioned(w: World, r: Request, env: PurchaseEnv)
    requires WorldInv(w) && !Blocked(w.db) && !HasKey(w.db, PurchaseKey(r.subscription))
    requires Bound(w.db, r).Some? && Snapshot(PurchasedAuthority(w.db, r)).Success?
    requires env.paid.Acked? && env.locked && env.flushed && env.first.Acked? && CleanEnv(env.run)
    ensures var e := Purchase(w, r, env);
            && e.1.Provisioned? && WorldInv(e.0) && !Blocked(e.0.db)
            && e.0.db.authority == PurchasedAuthority(w.db, r)
            && e.0.db.nextBinding == Bound(w.db, r).value.nextBinding
            && e.0.db.subscriptions.Keys == w.db.subscriptions.Keys + {r.subscription}
            && (forall key :: HasKey(e.0.db, key) <==> HasKey(w.db, key) || key == PurchaseKey(r.subscription))
  {
    hide Snapshot, Inv, PurchaseKey, Unsettled, HasKey, EnsureRoute, ClaimAndReconcile, Enqueued, Finalized;
    StartedKeeps(w, r.subscription, env.paid);
    var started := w.(db := GatewayQueue.Started(w.db, r.subscription));
    SameKeys(w.db, started.db);
    assert Bound(started.db, r).value.authority == Bound(w.db, r).value.authority;
    assert Bound(started.db, r).value.nextBinding == Bound(w.db, r).value.nextBinding;
    PurchaseProposedKeeps(started.db, r, env.run.now);
    var (proposed, id) := PurchaseProposed(started.db, r, env.run.now).value;
    CleanAttempt(started.(db := proposed), id, env.run);
  }

  /** A release that is a new operation, in which nothing goes wrong: the gateway has lost the route. */
  lemma CleanReleaseSettles(w: World, s: nat, operation: Option<string>, first: Commit, env: Env)
    requires WorldInv(w) && !Blocked(w.db) && s in w.db.subscriptions && s in w.db.authority.bindings
    requires NewOperation(w.db, ReleaseStep(s, operation, true, first, env))
    requires Snapshot(Released(w.db.authority, s)).Success? && first.Acked? && CleanEnv(env)
    ensures var r := Release(w, s, operation, true, first, env);
            && WorldInv(r.0) && !Blocked(r.0.db) && r.0.db.authority == Released(w.db.authority, s)
            && HasKey(r.0.db, ReleaseKeyOf(w.db, s, operation))
            && r.0.db.subscriptions.Keys == w.db.subscriptions.Keys
  {
    hide Snapshot, Inv, HasKey, ClaimAndReconcile, ReleaseProposed, Custom, ReleaseKeyOf, Released, Blocked;
    ReleaseProposedKeeps(w.db, s, operation, env.now);
    var (proposed, id) := ReleaseProposed(w.db, s, operation, env.now);
    CleanAttempt(w.(db := proposed), id, env);
  }

  // ------------------------------------------------------------ reused ids

  /** Releasing a subscription changes the snapshot exactly when it is routed. */
  lemma ReleaseChangesRoutesIff(a: Authority, s: nat)
    requires Snapshot(a).Success? && s in a.bindings
    ensures Snapshot(Released(a, s)) == Snapshot(a) <==> !Routed(a, s)
  {
    hide Collect, RowOk, OutboundOf;
    var b := Released(a, s);
    if Routed(a, s) {
      var i :| 0 <= i < |a.routes| && a.routes[i].active && a.routes[i].subscription == s;
      RoutedPrincipalLeaves(a, s, i);
    } else {
      UnroutedReleaseIsInvisible(a, s);
    }
  }

  /** A release takes out exactly the routes of its subscription: the tables stay sound, and every other
      principal keeps its tag. */
  lemma ReleaseRemovesExactly(a: Authority, s: nat)
    requires Snapshot(a).Success?
    ensures Snapshot(Released(a, s)).Success?
    ensures var before, after := Snapshot(a).value.userRoutes, Snapshot(Released(a, s)).value.userRoutes;
            forall i | 0 <= i < |a.routes| && a.routes[i].active ::
              var r := a.routes[i];
              && r.principal in before && before[r.principal] == r.tag
              && (r.principal in after <==> r.subscription != s)
              && (r.subscription != s ==> after[r.principal] == r.tag)
    ensures Snapshot(Released(a, s)).value.userRoutes.Keys <= Snapshot(a).value.userRoutes.Keys
  {
    hide Snapshot, Sound, RowOk, OutboundOf, Collect;
    var b := Released(a, s);
    SnapshotSound(a);
    ReleasedIsSound(a, s);
    SnapshotExact(b);
    forall i | 0 <= i < |a.routes| && a.routes[i].active
      ensures var r := a.routes[i];
              && r.principal in Snapshot(a).value.userRoutes && Snapshot(a).value.userRoutes[r.principal] == r.tag
              && (r.principal in Snapshot(b).value.userRoutes <==> r.subscription != s)
              && (r.subscription != s ==> Snapshot(b).value.userRoutes[r.principal] == r.tag)
    {
      RowIsRouted(a, i);
      if a.routes[i].subscription == s {
        RoutedPrincipalLeaves(a, s, i);
      } else {
        assert b.routes[i] == a.routes[i];
        RowIsRouted(b, i);
      }
    }
    forall p | p in Snapshot(b).value.userRoutes
      ensures p in Snapshot(a).value.userRoutes
    {
      SnapshotPrincipals(b, p);
      SnapshotPrincipals(a, p);
      StillThere(a, s, p);
    }
  }

  lemma StillThere(a: Authority, s: nat, p: string)
    requires HasPrincipal(Released(a, s), |Released(a, s).routes|, p)
    ensures HasPrincipal(a, |a.routes|, p)
  {
    var b := Released(a, s);
    var i :| 0 <= i < |b.routes| && b.routes[i].active && b.routes[i].principal == p;
    assert a.routes[i].active && a.routes[i].principal == p;
  }

  lemma ReleasedIsSound(a: Authority, s: nat)
    requires Sound(a)
    ensures Sound(Released(a, s))
  {
    hide Blank;
    var b := Released(a, s);
    forall i | 0 <= i < |b.routes| && b.routes[i].active
      ensures b.routes[i] == a.routes[i] && a.routes[i].subscription != s && RowOk(b, b.routes[i])
    {
      assert RowOk(a, a.routes[i]);
    }
  }

  lemma RowIsRouted(a: Authority, i: nat)
    requires Snapshot(a).Success? && i < |a.routes| && a.routes[i].active
    ensures a.routes[i].principal in Snapshot(a).value.userRoutes
    ensures Snapshot(a).value.userRoutes[a.routes[i].principal] == a.routes[i].tag
  {
    hide RowOk, OutboundOf, Collect, Sound;
    SnapshotExact(a);
    assert Recorded(a, Collect(a, |a.routes|).value, a.routes[i]);
  }

  /** A new order adds exactly its own route: every other principal keeps its tag. */
  lemma PurchaseAddsExactly(db: Db, r: Request)
    requires Bound(db, r).Some? && Snapshot(db.authority).Success? && !Routed(db.authority, r.subscription)
    requires Snapshot(PurchasedAuthority(db, r)).Success?
    ensures var before, after := Snapshot(db.authority).value.userRoutes, Snapshot(PurchasedAuthority(db, r)).value.userRoutes;
            after == before[r.principal := "egress-" + Decimal(r.egress)] && r.principal !in before
  {
    hide Snapshot, Sound, RowOk, OutboundOf, Collect, Decimal, Routed, EnsureRoute;
    var a, b := db.authority, PurchasedAuthority(db, r);
    var bound := Bound(db, r).value.authority;
    BoundRoutes(db, r);
    EnsuredRoutes(bound, r);
    assert b.routes == a.routes + [RouteOf(r)];
    var n := |a.routes|;
    RowIsRouted(b, n);
    SnapshotSound(b);
    forall p
      ensures p in Snapshot(b).value.userRoutes <==> p in Snapshot(a).value.userRoutes || p == r.principal
    {
      SnapshotPrincipals(a, p);
      SnapshotPrincipals(b, p);
      OneMorePrincipal(a, b, RouteOf(r), p);
    }
    forall p | p in Snapshot(a).value.userRoutes
      ensures p != r.principal && Snapshot(b).value.userRoutes[p] == Snapshot(a).value.userRoutes[p]
    {
      SnapshotPrincipals(a, p);
      var i := PrincipalRow(a, p);
      assert b.routes[i] == a.routes[i];
      RowIsRouted(a, i);
      RowIsRouted(b, i);
      DistinctRows(b, i, n);
    }
  }

  lemma BoundRoutes(db: Db, r: Request)
    requires Bound(db, r).Some?
    ensures Bound(db, r).value.authority.routes == db.authority.routes
    ensures Routed(Bound(db, r).value.authority, r.subscription) <==> Routed(db.authority, r.subscription)
  {
  }

  lemma PrincipalRow(a: Authority, p: string) returns (i: nat)
    requires HasPrincipal(a, |a.routes|, p)
    ensures i < |a.routes| && a.routes[i].active && a.routes[i].principal == p
  {
    i :| 0 <= i < |a.routes| && a.routes[i].active && a.routes[i].principal == p;
  }

  lemma OneMorePrincipal(a: Authority, b: Authority, r: Route, p: string)
    requires b.routes == a.routes + [r] && r.active
    ensures HasPrincipal(b, |b.routes|, p) <==> HasPrincipal(a, |a.routes|, p) || p == r.principal
  {
    assert b.routes[|a.routes|] == r;
    if HasPrincipal(a, |a.routes|, p) {
      var i := PrincipalRow(a, p);
      assert b.routes[i] == a.routes[i];
    }
  }

  lemma DistinctRows(a: Authority, i: nat, j: nat)
    requires Sound(a) && i < j < |a.routes| && a.routes[i].active && a.routes[j].active
    ensures a.routes[i].principal != a.routes[j].principal
  {
  }

  lemma UnroutedReleaseIsInvisible(a: Authority, s: nat)
    requires s in a.bindings && !Routed(a, s)
    ensures Snapshot(Released(a, s)) == Snapshot(a)
  {
    hide AddRow;
    var b := Released(a, s);
    forall i | 0 <= i < |a.routes|
      ensures b.routes[i] == a.routes[i]
    {
      assert a.routes[i].subscription == s ==> !a.routes[i].active;
    }
    assert b.routes == a.routes;
    assert !Routed(b, s);
    UnroutedBindingIsInvisible(b, s, a.bindings[s], |b.routes|);
    assert b.(bindings := b.bindings[s := a.bindings[s]]) == a;
  }

  lemma RoutedPrincipalLeaves(a: Authority, s: nat, i: nat)
    requires Snapshot(a).Success? && i < |a.routes| && a.routes[i].active && a.routes[i].subscription == s
    ensures a.routes[i].principal in Snapshot(a).value.userRoutes
    ensures Snapshot(Released(a, s)).Success? ==> a.routes[i].principal !in Snapshot(Released(a, s)).value.userRoutes
  {
    hide Snapshot, Sound, Released, HasPrincipal;
    SnapshotPrincipals(a, a.routes[i].principal);
    SnapshotSound(a);
    ActiveRowHasPrincipal(a, i);
    ReleasedPrincipalIsGone(a, s, i);
    if Snapshot(Released(a, s)).Success? {
      SnapshotPrincipals(Released(a, s), a.routes[i].principal);
    }
  }

  lemma SnapshotSound(a: Authority)
    requires Snapshot(a).Success?
    ensures Sound(a)
  {
    hide Snapshot, Sound, Holds, OutboundsHold;
    SnapshotExact(a);
  }

  lemma ActiveRowHasPrincipal(a: Authority, i: nat)
    requires i < |a.routes| && a.routes[i].active
    ensures HasPrincipal(a, |a.routes|, a.routes[i].principal)
  {
  }

  lemma ReleasedPrincipalIsGone(a: Authority, s: nat, i: nat)
    requires Sound(a) && i < |a.routes| && a.routes[i].active && a.routes[i].subscription == s
    ensures !HasPrincipal(Released(a, s), |Released(a, s).routes|, a.routes[i].principal)
  {
  }

  /** An attempt on a claimed row, whatever its history: the row ends unresolved, or it was finalized
      over the committed snapshot. */
  lemma AttemptAgrees(w: World, id: JobId, env: Env)
    requires id in w.db.jobs && Unresolved(w.db.jobs[id])
    ensures Agrees(ReconcileClaimed(w, id, env).0)
  {
    hide Snapshot, Blocked, Classified;
    var r := ReconcileClaimed(w, id, env).0;
    if Snapshot(w.db.authority).Success? && w.db.jobs[id].subscription in w.db.subscriptions {
      ClassifiedOnlyRecords(w.(running := Some(Snapshot(w.db.authority).value), db := After(w.db, FinalizedDb(w.db, id), env.finalize)), id, env);
    }
    assert id in r.db.jobs && r.db.authority == w.db.authority;
    if Unresolved(r.db.jobs[id]) {
      IsBlocked(r.db, id);
    }
  }

  lemma ClassifiedOnlyRecords(w: World, id: JobId, env: Env)
    requires id in w.db.jobs
    ensures var r := Classified(w, id, env).0;
            r.running == w.running && r.db.authority == w.db.authority && id in r.db.jobs
  {
  }

  lemma IsBlocked(db: Db, id: JobId)
    requires id in db.jobs && Unresolved(db.jobs[id])
    ensures Blocked(db)
  {
  }

  /** A release whose first commit landed is projected: its claim reached the database. */
  predicate Projects(hasGateway: bool, first: Commit, env: Env) {
    hasGateway && first.Acked? && env.claim.Lands()
  }

  /** A release under any operation id and any faults: the gateway and the tables disagree afterwards
      exactly when its commit landed over a reused key, took the route of the subscription, and was not
      projected. */
  lemma ReleaseAgreesIff(w: World, s: nat, operation: Option<string>, hasGateway: bool, first: Commit, env: Env)
    requires WorldInv(w)
    ensures !Agrees(Release(w, s, operation, hasGateway, first, env).0) <==>
            && s in w.db.subscriptions && s in w.db.authority.bindings && !Blocked(w.db)
            && first.Lands() && HasKey(w.db, ReleaseKeyOf(w.db, s, operation)) && Routed(w.db.authority, s)
            && !Projects(hasGateway, first, env)
  {
    hide Snapshot, Inv, HasKey, Enqueued, Released, ReleaseKeyOf, Routed, Agrees, ReconcileClaimed, Blocked;
    if s in w.db.subscriptions && s in w.db.authority.bindings && !Blocked(w.db) && first.Lands() {
      CommittedRelease(w, s, operation, env.now);
      var (proposed, id) := ReleaseProposed(w.db, s, operation, env.now);
      var committed := w.(db := proposed);
      if hasGateway && first.Acked? && env.claim.Lands() {
        ClaimedAgrees(committed, id, env);
      }
    }
  }

  /** What the commit of a release leaves, before any projection. */
  lemma CommittedRelease(w: World, s: nat, operation: Option<string>, now: int)
    requires WorldInv(w) && !Blocked(w.db) && s in w.db.subscriptions && s in w.db.authority.bindings
    ensures var p := ReleaseProposed(w.db, s, operation, now);
            && p.1 in p.0.jobs
            && (Agrees(w.(db := p.0)) <==> !HasKey(w.db, ReleaseKeyOf(w.db, s, operation)) || !Routed(w.db.authority, s))
  {
    hide Snapshot, Inv, HasKey, Released, ReleaseKeyOf, Routed, Agrees, FindKey;
    AgreedSnapshot(w);
    var key := ReleaseKeyOf(w.db, s, operation);
    AgreementNeedsFreshKey(w, Released(w.db.authority, s), key, s, now);
    ReleaseChangesRoutesIff(w.db.authority, s);
  }

  lemma ClaimedAgrees(w: World, id: JobId, env: Env)
    requires id in w.db.jobs && env.claim.Lands()
    ensures Agrees(ClaimAndReconcile(w, id, env).0)
  {
    hide Snapshot, Blocked, ReconcileClaimed;
    var claimed := w.(db := GatewayQueue.Claimed(w.db, id, env.now));
    IsBlocked(claimed.db, id);
    if env.claim.Acked? {
      AttemptAgrees(claimed, id, env);
    }
  }

  /** Under a reused id finality fails in the opposite case. Every release, under any operation id and
      any faults, leaves all finalized rows alone unless it projects over a reused key: then the
      finalized row is claimed a second time. */
  lemma ReleaseIsFinalIff(w: World, s: nat, operation: Option<string>, hasGateway: bool, first: Commit, env: Env)
    requires WorldInv(w)
    ensures !Final(w.db, Release(w, s, operation, hasGateway, first, env).0.db) <==>
            && s in w.db.subscriptions && s in w.db.authority.bindings && !Blocked(w.db)
            && HasKey(w.db, ReleaseKeyOf(w.db, s, operation)) && Projects(hasGateway, first, env)
  {
    hide Snapshot, HasKey, Released, ReleaseKeyOf, ReconcileClaimed, ReleaseProposed, TablesOk, KeysUnique, OneUnresolved, JobOk;
    if s in w.db.subscriptions && s in w.db.authority.bindings && !Blocked(w.db) && first.Lands() {
      ProposedRow(w, s, operation, env.now);
      var (proposed, id) := ReleaseProposed(w.db, s, operation, env.now);
      if hasGateway && first.Acked? {
        AttemptTouchesOneRow(w.(db := GatewayQueue.Claimed(proposed, id, env.now)), id, env);
      }
    }
  }

  /** The row of a release: one of the finalized rows, or a new one. */
  lemma ProposedRow(w: World, s: nat, operation: Option<string>, now: int)
    requires WorldInv(w) && s in w.db.authority.bindings
    ensures var (proposed, id) := ReleaseProposed(w.db, s, operation, now);
            && id in proposed.jobs && (id in w.db.jobs <==> HasKey(w.db, ReleaseKeyOf(w.db, s, operation)))
            && (forall k | k in w.db.jobs :: k in proposed.jobs && proposed.jobs[k] == w.db.jobs[k])
  {
    hide Snapshot, HasKey, Released, ReleaseKeyOf, FindKey, TablesOk, KeysUnique, OneUnresolved, JobOk;
    var key := ReleaseKeyOf(w.db, s, operation);
    var base := w.db.(authority := Released(w.db.authority, s));
    SameKeys(w.db, base);
    FindKeyExact(base, key);
  }

  ghost predicate TouchesOneRow(db: Db, db': Db, id: JobId) {
    && id in db.jobs && db'.jobs.Keys == db.jobs.Keys && db'.jobs[id].attempts == db.jobs[id].attempts
    && db'.jobs[id].maxAttempts == db.jobs[id].maxAttempts
    && (forall k | k in db.jobs && k != id :: k in db'.jobs && db'.jobs[k] == db.jobs[k])
  }

  lemma AttemptTouchesOneRow(w: World, id: JobId, env: Env)
    requires id in w.db.jobs
    ensures TouchesOneRow(w.db, ReconcileClaimed(w, id, env).0.db, id)
  {
    hide Snapshot, Classified, RecordFailure, FinalizedDb, TouchesOneRow;
    RecordFailureTouchesOneRow(w, id, SnapshotInvalid, env.later, env.failure);
    RecordFailureTouchesOneRow(w, id, CandidateInvalid, env.later, env.failure);
    MarkedTouchesOneRow(w.db, id, 0, env.finalize);
    if env.projection.NotConfirmed? {
      RecordFailureTouchesOneRow(w.(running := env.projection.left), id, ApplyNotConfirmed, env.later, env.failure);
    }
    if Snapshot(w.db.authority).Success? {
      var applied := w.(running := Some(Snapshot(w.db.authority).value));
      RecordFailureTouchesOneRow(applied, id, SubscriptionMissing, env.later, env.failure);
      if w.db.jobs[id].subscription in w.db.subscriptions {
        FinalizedTouchesOneRow(w.db, id, env.finalize);
        var shown := applied.(db := After(w.db, FinalizedDb(w.db, id), env.finalize));
        ClassifiedTouchesOneRow(shown, id, env);
        TouchesTrans(w.db, shown.db, Classified(shown, id, env).0.db, id);
      }
    }
  }

  lemma FinalizedTouchesOneRow(db: Db, id: JobId, c: Commit)
    requires id in db.jobs && db.jobs[id].subscription in db.subscriptions
    ensures TouchesOneRow(db, After(db, FinalizedDb(db, id), c), id) && id in After(db, FinalizedDb(db, id), c).jobs
  {
  }

  lemma ClassifiedTouchesOneRow(w: World, id: JobId, env: Env)
    requires id in w.db.jobs
    ensures TouchesOneRow(w.db, Classified(w, id, env).0.db, id)
  {
    hide RecordFailure, ClassifyFinalization, TouchesOneRow;
    RecordFailureTouchesOneRow(w, id, CommitError, env.later, env.failure);
    var first := RecordFailure(w, id, CommitError, env.later, env.failure);
    FailureKeepsRow(w, id, CommitError, env.later, env.failure);
    RecordFailureTouchesOneRow(first.0, id, CommitError, env.later, env.failureAgain);
    TouchesTrans(w.db, first.0.db, RecordFailure(first.0, id, CommitError, env.later, env.failureAgain).0.db, id);
    MarkedTouchesOneRow(w.db, id, env.later, env.mark);
  }

  lemma MarkedTouchesOneRow(db: Db, id: JobId, now: int, c: Commit)
    requires id in db.jobs
    ensures TouchesOneRow(db, After(db, MarkedDb(db, id, now), c), id) && TouchesOneRow(db, db, id)
  {
  }

  lemma FailureKeepsRow(w: World, id: JobId, reason: Reason, now: int, c: Commit)
    requires id in w.db.jobs
    ensures id in RecordFailure(w, id, reason, now, c).0.db.jobs
  {
  }

  lemma RecordFailureTouchesOneRow(w: World, id: JobId, reason: Reason, now: int, c: Commit)
    requires id in w.db.jobs
    ensures TouchesOneRow(w.db, RecordFailure(w, id, reason, now, c).0.db, id)
  {
  }

  lemma TouchesTrans(a: Db, b: Db, c: Db, id: JobId)
    requires TouchesOneRow(a, b, id) && TouchesOneRow(b, c, id)
    ensures TouchesOneRow(a, c, id)
  {
  }

  lemma AgreedSnapshot(w: World)
    requires WorldInv(w) && !Blocked(w.db)
    ensures Snapshot(w.db.authority).Success?
  {
  }

  lemma NoColonIsCustom(operation: string)
    requires ':' !in operation
    ensures Custom(operation)
  {
  }

  // ------------------------------------------------------ a reused id at work

  const HOST := Endpoint("h", 1, "socks", "ref")
  const ENDPOINTS: map<nat, Endpoint> := map[1 := HOST, 2 := HOST]
  const FIRST := Request(1, 1, "p", "ref")
  const SECOND := Request(2, 2, "q", "ref")
  const CLEAN := Env(0, 0, Acked, true, Confirmed, Acked, true, Acked, Acked, Acked)
  const PAID_CLEAN := PurchaseEnv(Acked, true, true, Acked, true, true, Acked, true, CLEAN)
  const BOTH := Authority(
    [RouteOf(FIRST), RouteOf(SECOND)], ENDPOINTS,
    map[1 := EgressBinding(0, 1, Some("ref")), 2 := EgressBinding(1, 2, Some("ref"))])
  const ONE := Authority([RouteOf(FIRST)], ENDPOINTS, map[1 := EgressBinding(0, 1, Some("ref"))])

  lemma PlainRow(a: Authority, r: Request)
    requires a.endpoints == ENDPOINTS && r in {FIRST, SECOND}
    requires r.subscription in a.bindings ==>
               a.bindings[r.subscription].egress == r.egress && a.bindings[r.subscription].secretRef == Some("ref")
    ensures RowOk(a, RouteOf(r))
  {
    hide Decimal;
    assert Lower("socks") == "socks";
    assert !IsSpace("p"[0]) && !IsSpace("q"[0]) && !IsSpace("h"[0]);
    var tag := RouteOf(r).tag;
    assert tag[0] == 'e' && !IsSpace(tag[0]) && BLOCK[0] == 'B';
  }

  lemma BothAreSound()
    ensures Snapshot(ONE).Success? && Snapshot(BOTH).Success? && Snapshot(Released(BOTH, 1)).Success?
    ensures Routed(Released(BOTH, 1), 2)
  {
    hide Snapshot, Sound, Routed;
    OneIsSound();
    TwoAreSound(BOTH);
    LastIsSound();
    SnapshotExact(ONE);
    SnapshotExact(BOTH);
    SnapshotExact(Released(BOTH, 1));
  }

  lemma OneIsSound()
    ensures Sound(ONE)
  {
    hide RowOk, RouteOf;
    PlainRow(ONE, FIRST);
  }

  lemma TwoAreSound(a: Authority)
    requires a == BOTH
    ensures Sound(a)
  {
    hide RowOk;
    PlainRow(a, FIRST);
    PlainRow(a, SECOND);
    TagsDiffer();
    assert a.routes[0].principal[0] == 'p' && a.routes[1].principal[0] == 'q';
  }

  lemma LastIsSound()
    ensures Sound(Released(BOTH, 1)) && Routed(Released(BOTH, 1), 2)
  {
    hide RowOk;
    var last := Released(BOTH, 1);
    PlainRow(last, SECOND);
    assert last.routes[1] == RouteOf(SECOND) && !last.routes[0].active;
  }

  lemma TagsDiffer()
    ensures RouteOf(FIRST).tag != RouteOf(SECOND).tag
  {
    assert Decimal(1) == "1" && Decimal(2) == "2";
    assert RouteOf(FIRST).tag[7] == '1' && RouteOf(SECOND).tag[7] == '2';
  }

  /** Two clean purchases from the beginning. */
  lemma TwoPurchases() returns (w1: World, w2: World)
    ensures w1 == Next(EmptyWorld(ENDPOINTS), PurchaseStep(FIRST, PAID_CLEAN))
    ensures w2 == Next(w1, PurchaseStep(SECOND, PAID_CLEAN))
    ensures NewOperation(EmptyWorld(ENDPOINTS).db, PurchaseStep(FIRST, PAID_CLEAN))
    ensures NewOperation(w1.db, PurchaseStep(SECOND, PAID_CLEAN))
    ensures WorldInv(w2) && !Blocked(w2.db) && w2.db.authority == BOTH && w2.db.subscriptions.Keys == {1, 2}
    ensures forall key | HasKey(w2.db, key) :: key.kind.PURCHASE?
  {
    hide Snapshot, WorldInv, Purchase, PurchaseKey, RouteOf, Blocked;
    var w0 := EmptyWorld(ENDPOINTS);
    EmptyWorldAgrees(ENDPOINTS);
    BothAreSound();
    KindOfKeys(1, 0);
    KindOfKeys(2, 0);
    KeysAreDistinct(1, 2, 0, 0);
    FindKeyExact(w0.db, PurchaseKey(1));
    assert PurchasedAuthority(w0.db, FIRST) == ONE by {
      FirstRoutes();
    }
    NothingIsBlocked(w0.db);
    CleanPurchaseIsProvisioned(w0, FIRST, PAID_CLEAN);
    w1 := Purchase(w0, FIRST, PAID_CLEAN).0;
    BelowNext(w1);
    FindKeyExact(w1.db, PurchaseKey(2));
    assert PurchasedAuthority(w1.db, SECOND) == BOTH by {
      SecondRoutes(w1.db);
    }
    CleanPurchaseIsProvisioned(w1, SECOND, PAID_CLEAN);
    w2 := Purchase(w1, SECOND, PAID_CLEAN).0;
  }

  lemma NothingIsBlocked(db: Db)
    requires db.jobs == map[]
    ensures !Blocked(db)
  {
  }

  lemma BelowNext(w: World)
    requires WorldInv(w)
    ensures forall id | id in w.db.jobs :: id < w.db.nextJob
  {
  }

  lemma FirstRoutes()
    ensures var db := EmptyWorld(ENDPOINTS).db;
            && Bound(db, FIRST).Some? && PurchasedAuthority(db, FIRST) == ONE && Bound(db, FIRST).value.nextBinding == 1
  {
  }

  lemma SecondRoutes(db: Db)
    requires db.authority == ONE && db.nextBinding == 1
    ensures Bound(db, SECOND).Some? && PurchasedAuthority(db, SECOND) == BOTH
  {
  }

  const HISTORY := [
    PurchaseStep(FIRST, PAID_CLEAN), PurchaseStep(SECOND, PAID_CLEAN), ReleaseStep(1, Some("x"), true, Acked, CLEAN)]

  /** Two customers are provisioned and the first is released under the operation id "x". A release of
      the second under the same id then leaves no intent when it is not projected, as it is for a caller
      without a gateway, and the gateway goes on routing a customer that the tables have released. */
  lemma ReusedOperationLeavesTheRoute(hasGateway: bool, first: Commit, env: Env)
    requires first.Lands() && !Projects(hasGateway, first, env)
    ensures var w := Exec(EmptyWorld(ENDPOINTS), HISTORY);
            && NewOperations(EmptyWorld(ENDPOINTS), HISTORY) && WorldInv(w) && !Blocked(w.db)
            && 2 in w.db.subscriptions && 2 in w.db.authority.bindings && HasKey(w.db, Key(RELEASE, "x"))
            && !Agrees(Release(w, 2, Some("x"), hasGateway, first, env).0)
  {
    hide Snapshot, WorldInv, Release, Purchase, Blocked, Routed, NewOperation, Custom, Agrees, HasKey;
    var w1, w2 := TwoPurchases();
    BothAreSound();
    FirstReleaseIsNew(w2);
    CleanReleaseSettles(w2, 1, Some("x"), Acked, CLEAN);
    var w3 := Release(w2, 1, Some("x"), true, Acked, CLEAN).0;
    ThreeSteps(w1, w2, w3);
    ReleaseAgreesIff(w3, 2, Some("x"), hasGateway, first, env);
  }

  lemma FirstReleaseIsNew(w: World)
    requires WorldInv(w) && w.db.authority == BOTH && forall key | HasKey(w.db, key) :: key.kind.PURCHASE?
    ensures NewOperation(w.db, ReleaseStep(1, Some("x"), true, Acked, CLEAN))
  {
    hide Snapshot, HasKey, Custom, JobOk, KeysUnique, OneUnresolved, TablesOk;
    NoColonIsCustom("x");
    FindKeyExact(w.db, Key(RELEASE, "x"));
  }

  lemma ThreeSteps(w1: World, w2: World, w3: World)
    requires w1 == Next(EmptyWorld(ENDPOINTS), HISTORY[0]) && w2 == Next(w1, HISTORY[1]) && w3 == Next(w2, HISTORY[2])
    requires NewOperation(EmptyWorld(ENDPOINTS).db, HISTORY[0]) && NewOperation(w1.db, HISTORY[1]) && NewOperation(w2.db, HISTORY[2])
    ensures Exec(EmptyWorld(ENDPOINTS), HISTORY) == w3 && NewOperations(EmptyWorld(ENDPOINTS), HISTORY)
  {
    hide Next, NewOperation;
    var w0 := EmptyWorld(ENDPOINTS);
    assert HISTORY[1..][1..] == HISTORY[2..] && HISTORY[2..][1..] == [];
    assert Exec(w3, []) == w3 && NewOperations(w3, []);
    assert Exec(w2, HISTORY[2..]) == w3 && NewOperations(w2, HISTORY[2..]);
    assert Exec(w1, HISTORY[1..]) == w3 && NewOperations(w1, HISTORY[1..]);
  }
}
