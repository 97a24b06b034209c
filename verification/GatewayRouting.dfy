/** From purchases and releases to connections: the queue, the snapshot, the composition and the
    first-match router put together. */
module GatewayRouting {
  import opened Durable
  import opened GatewayQueue
  import opened GatewayTheorems
  import opened RoutingSnapshot
  import opened Strings
  import opened Wrappers
  import opened XrayComposition
  import Pipeline = XrayPipeline

  /** Every route was written by a purchase: it is tagged after its endpoint. */
  ghost predicate OwnTags(a: Authority) {
    forall i | 0 <= i < |a.routes| :: a.routes[i].tag == "egress-" + Decimal(a.routes[i].egress)
  }

  /** No writer changes the endpoints or tags a route in another way. */
  ghost predicate OwnWriters(a: Authority, b: Authority) {
    b.endpoints == a.endpoints && (OwnTags(a) ==> OwnTags(b))
  }

  lemma ReleaseWrites(a: Authority, s: nat)
    ensures OwnWriters(a, Released(a, s))
  {
  }

  lemma PurchaseWrites(db: Db, r: Request, now: int)
    ensures Bound(db, r).Some? ==> OwnWriters(db.authority, Bound(db, r).value.authority)
    ensures PurchaseProposed(db, r, now).Some? ==>
              && OwnWriters(db.authority, PurchaseProposed(db, r, now).value.0.authority)
              && PurchaseProposed(db, r, now).value.1 in PurchaseProposed(db, r, now).value.0.jobs
  {
    hide Decimal, Snapshot, FindKey;
  }

  lemma ClaimAndReconcileWrites(w: World, id: JobId, env: Env)
    requires id in w.db.jobs
    ensures ClaimAndReconcile(w, id, env).0.db.authority == w.db.authority
  {
    hide Snapshot;
  }

  lemma NextWrites(w: World, step: Step)
    ensures OwnWriters(w.db.authority, Next(w, step).db.authority)
  {
    hide ClaimAndReconcile, PurchaseProposed, Bound, Released, OwnTags, FindKey, FirstClaimable, ClassifyFirst;
    match step {
      case PurchaseStep(r, env) => PurchaseStepWrites(w, r, env);
      case HoldStep(r, paid, business) =>
        PurchaseWrites(After(w.db, GatewayQueue.Started(w.db, r.subscription), paid), r, 0);
      case ReleaseStep(s, operation, hasGateway, first, env) =>
        ReleaseStepWrites(w, s, operation, hasGateway, first, env);
      case RecoverStep(env) =>
        var id := FirstClaimable(w.db, env.now, 0);
        if id.Some? {
          ClaimAndReconcileWrites(w, id.value, env);
        }
    }
  }

  lemma ReleaseStepWrites(w: World, s: nat, operation: Option<string>, hasGateway: bool, first: Commit, env: Env)
    ensures OwnWriters(w.db.authority, Release(w, s, operation, hasGateway, first, env).0.db.authority)
  {
    hide ClaimAndReconcile, Released, OwnTags, FindKey;
    ReleaseWrites(w.db.authority, s);
    if s in w.db.authority.bindings && first.Acked? {
      var (proposed, id) := ReleaseProposed(w.db, s, operation, env.now);
      ClaimAndReconcileWrites(w.(db := proposed), id, env);
    }
  }

  lemma PurchaseStepWrites(w: World, r: Request, env: PurchaseEnv)
    ensures OwnWriters(w.db.authority, Purchase(w, r, env).0.db.authority)
  {
    hide ClaimAndReconcile, PurchaseProposed, Bound, OwnTags, ClassifyFirst;
    var started := w.(db := After(w.db, GatewayQueue.Started(w.db, r.subscription), env.paid));
    PurchaseWrites(started.db, r, env.run.now);
    if env.paid.Acked? && PurchaseProposed(started.db, r, env.run.now).Some? && env.first.Acked? {
      var (proposed, id) := PurchaseProposed(started.db, r, env.run.now).value;
      ClaimAndReconcileWrites(started.(db := proposed), id, env.run);
    }
  }

  lemma {:induction false} ExecWrites(w: World, steps: seq<Step>)
    ensures OwnWriters(w.db.authority, Exec(w, steps).db.authority)
    decreases |steps|
  {
    hide Next, OwnTags;
    if steps != [] {
      NextWrites(w, steps[0]);
      ExecWrites(Next(w, steps[0]), steps[1..]);
    }
  }

  /** An egress tag is never one of the built-in outbounds. */
  lemma OwnTagsAreNotDirect(a: Authority)
    requires OwnTags(a) && Snapshot(a).Success?
    ensures Pipeline.NoDirect(Snapshot(a).value)
  {
    hide Snapshot, Decimal, RowOk;
    var d := Snapshot(a).value;
    forall k | 0 <= k < |d.outbounds|
      ensures d.outbounds[k].tag != "DIRECT"
    {
      var i := Pipeline.OutboundHasRow(a, k);
      assert d.outbounds[k].tag == a.routes[i].tag;
      assert a.routes[i].tag[0] == 'e' && "DIRECT"[0] == 'D';
    }
  }

  /** The routes are exactly the active rows: each principal with its own tag, and nobody else. */
  ghost predicate AreCommitted(a: Authority, routes: map<string, string>) {
    && (forall i | 0 <= i < |a.routes| && a.routes[i].active ::
          a.routes[i].principal in routes && routes[a.routes[i].principal] == a.routes[i].tag)
    && (forall u | u in routes :: HasPrincipal(a, |a.routes|, u))
  }

  lemma SnapshotRoutesAreCommitted(a: Authority)
    requires Snapshot(a).Success?
    ensures AreCommitted(a, Snapshot(a).value.userRoutes)
  {
    hide Collect, RowOk, OutboundOf;
    SnapshotExact(a);
    var t := Collect(a, |a.routes|).value;
    assert t.userRoutes == Snapshot(a).value.userRoutes;
    forall i | 0 <= i < |a.routes| && a.routes[i].active
      ensures a.routes[i].principal in t.userRoutes && t.userRoutes[a.routes[i].principal] == a.routes[i].tag
    {
      assert Recorded(a, t, a.routes[i]);
    }
  }

  /** After any interleaving of purchases, releases and recoveries that leaves no intent unresolved, the
      document the gateway runs is valid, and decides every tcp or udp connection by the committed
      routes: private traffic and principals without an active row are blocked, every other principal
      leaves by the tag of its row. */
  lemma CommittedRoutesAreServed(
    w: World, steps: seq<Step>, credentials: Credentials, deployment: Deployment, doc: Document
  )
    requires WorldInv(w) && OwnTags(w.db.authority) && NewOperations(w, steps) && !Blocked(Exec(w, steps).db)
    requires DeploymentOk(deployment) && Exec(w, steps).running.Some?
    requires Pipeline.Resolved(Exec(w, steps).running.value, credentials)
    requires IsComposition(doc, Exec(w, steps).running.value, credentials, deployment)
    ensures Valid(doc)
    ensures var d := Exec(w, steps).running.value;
            && AreCommitted(Exec(w, steps).db.authority, d.userRoutes)
            && (forall c: Connection | c.network in {"tcp", "udp"} ::
                  FirstMatch(doc.rules, c) == Some(Pipeline.Decision(d, c)))
  {
    hide Exec, NewOperations, WorldInv, GatewayQueue.Blocked, Snapshot, Valid, FirstMatch, IsComposition, OwnTags;
    hide Pipeline.Resolved, Pipeline.NoDirect, Pipeline.Decision, AreCommitted;
    CommitFirstAgreement(w, steps);
    ExecWrites(w, steps);
    var a := Exec(w, steps).db.authority;
    OwnTagsAreNotDirect(a);
    Pipeline.Pipeline(a, credentials, deployment, doc);
    SnapshotRoutesAreCommitted(a);
  }

  /** The same from the beginning: an empty database over any endpoints, which no writer changes. */
  lemma ReachableRoutesAreServed(
    endpoints: map<nat, Endpoint>, steps: seq<Step>, credentials: Credentials, deployment: Deployment, doc: Document
  )
    requires var w := EmptyWorld(endpoints);
             && NewOperations(w, steps) && !Blocked(Exec(w, steps).db) && Exec(w, steps).running.Some?
             && Pipeline.Resolved(Exec(w, steps).running.value, credentials)
             && IsComposition(doc, Exec(w, steps).running.value, credentials, deployment)
    requires DeploymentOk(deployment)
    ensures Valid(doc) && Exec(EmptyWorld(endpoints), steps).db.authority.endpoints == endpoints
    ensures var d := Exec(EmptyWorld(endpoints), steps).running.value;
            && AreCommitted(Exec(EmptyWorld(endpoints), steps).db.authority, d.userRoutes)
            && (forall c: Connection | c.network in {"tcp", "udp"} ::
                  FirstMatch(doc.rules, c) == Some(Pipeline.Decision(d, c)))
  {
    hide Exec, NewOperations, GatewayQueue.Blocked, Valid, FirstMatch, IsComposition, OwnTags, Pipeline.Resolved, WorldInv;
    hide Pipeline.Decision, AreCommitted;
    EmptyWorldAgrees(endpoints);
    EmptyTags(endpoints);
    CommittedRoutesAreServed(EmptyWorld(endpoints), steps, credentials, deployment, doc);
    ExecWrites(EmptyWorld(endpoints), steps);
  }

  lemma EmptyTags(endpoints: map<nat, Endpoint>)
    ensures OwnTags(EmptyWorld(endpoints).db.authority)
  {
  }
}
