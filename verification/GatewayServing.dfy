/** The queue over the real gateway: every projection is an apply of the Xray provider on the shared
    file, process and baseline, between promotions and renders by the deployment
    (backend/app/infra/gateway_reconciliation.py, backend/app/providers/gateway/xray_file.py). */
module GatewayServing {
  import opened Durable
  import opened GatewayQueue
  import opened GatewayReuse
  import opened GatewayRouting
  import opened GatewayTheorems
  import opened RoutingSnapshot
  import opened Strings
  import opened Wrappers
  import opened XrayComposition
  import Pipeline = XrayPipeline
  import Xray = XrayWriters

  /** The database and the gateway as the queue knows it, and the gateway as it is. */
  datatype Site = Site(w: World, x: Xray.Shared)

  /** A step of the queue with the answers of the gateway, or another writer of the file. */
  datatype Move = Order(step: Step, answers: Xray.Env) | Deploy(op: Xray.Op)

  // ------------------------------------------------- what a step projects

  function Projecting(s: Step, p: Projection): Step {
    match s
    case PurchaseStep(r, env) => PurchaseStep(r, env.(run := env.run.(projection := p)))
    case HoldStep(_, _, _) => s
    case ReleaseStep(subscription, operation, hasGateway, first, env) =>
      ReleaseStep(subscription, operation, hasGateway, first, env.(projection := p))
    case RecoverStep(env) => RecoverStep(env.(projection := p))
  }

  /** A claimed intent gets as far as `apply`. */
  predicate AttemptApplies(a: Authority, env: Env) {
    env.claim.Acked? && Snapshot(a).Success? && env.prepared
  }

  /** The step gets as far as `apply`. */
  predicate Applies(w: World, s: Step) {
    match s
    case HoldStep(_, _, _) => false
    case RecoverStep(env) => FirstClaimable(w.db, env.now, 0).Some? && AttemptApplies(w.db.authority, env)
    case ReleaseStep(subscription, operation, hasGateway, first, env) =>
      && subscription in w.db.subscriptions && subscription in w.db.authority.bindings && !Blocked(w.db)
      && first.Acked? && hasGateway && AttemptApplies(Released(w.db.authority, subscription), env)
    case PurchaseStep(r, env) =>
      var started := GatewayQueue.Started(w.db, r.subscription);
      && env.paid.Acked? && env.locked && !Blocked(started) && env.flushed && env.first.Acked?
      && var p := PurchaseProposed(started, r, env.run.now);
         p.Some? && AttemptApplies(p.value.0.authority, env.run)
  }

  /** What the gateway is known to route after a projection of `d`. */
  function Shown(d: Desired, p: Projection): Option<Desired> {
    if p.Confirmed? then Some(d) else p.left
  }

  lemma AttemptShows(w: World, id: JobId, env: Env)
    requires id in w.db.jobs
    ensures var w' := ClaimAndReconcile(w, id, env).0;
            && w'.db.authority == w.db.authority
            && w'.running == (if AttemptApplies(w.db.authority, env) then Shown(Snapshot(w.db.authority).value, env.projection)
                              else w.running)
  {
    hide Snapshot, Classified, RecordFailure;
    var c := w.(db := After(w.db, GatewayQueue.Claimed(w.db, id, env.now), env.claim));
    RecordsOnly(c, id, SnapshotInvalid, env.later, env.failure);
    RecordsOnly(c, id, CandidateInvalid, env.later, env.failure);
    if AttemptApplies(w.db.authority, env) {
      var shown := c.(running := Shown(Snapshot(w.db.authority).value, env.projection));
      RecordsOnly(shown, id, ApplyNotConfirmed, env.later, env.failure);
      RecordsOnly(shown, id, SubscriptionMissing, env.later, env.failure);
      if env.projection.Confirmed? && w.db.jobs[id].subscription in w.db.subscriptions {
        ClassifiedOnlyRecords(shown.(db := After(c.db, FinalizedDb(c.db, id), env.finalize)), id, env);
      }
    }
  }

  lemma RecordsOnly(w: World, id: JobId, reason: Reason, now: int, c: Commit)
    requires id in w.db.jobs
    ensures var r := RecordFailure(w, id, reason, now, c).0;
            r.db.authority == w.db.authority && r.running == w.running
  {
  }

  /** The projection of a step changes what the gateway routes, and nothing of the committed routes. */
  lemma StepShows(w: World, s: Step, p: Projection)
    ensures var w' := Next(w, Projecting(s, p));
            && w'.db.authority == Next(w, s).db.authority
            && (Applies(w, s) ==> Snapshot(w'.db.authority).Success? && w'.running == Shown(Snapshot(w'.db.authority).value, p))
            && (!Applies(w, s) ==> w'.running == w.running)
  {
    hide Snapshot, ClaimAndReconcile, FirstClaimable, Released, Bound, EnsureRoute, FindKey;
    match s {
      case HoldStep(_, _, _) =>
      case RecoverStep(env) => RecoverShows(w, env, p);
      case ReleaseStep(subscription, operation, hasGateway, first, env) =>
        ReleaseShows(w, subscription, operation, hasGateway, first, env, p);
      case PurchaseStep(r, env) => PurchaseShows(w, r, env, p);
    }
  }

  lemma RecoverShows(w: World, env: Env, p: Projection)
    ensures var w' := Recover(w, env.(projection := p)).0;
            && w'.db.authority == w.db.authority == Recover(w, env).0.db.authority
            && w'.running == (if Applies(w, RecoverStep(env)) then Shown(Snapshot(w.db.authority).value, p) else w.running)
  {
    hide Snapshot, ClaimAndReconcile;
    var first := FirstClaimable(w.db, env.now, 0);
    if first.Some? {
      AttemptShows(w, first.value, env);
      AttemptShows(w, first.value, env.(projection := p));
    }
  }

  lemma ReleaseShows(
    w: World, s: nat, operation: Option<string>, hasGateway: bool, first: Commit, env: Env, p: Projection
  )
    ensures var w' := Release(w, s, operation, hasGateway, first, env.(projection := p)).0;
            var step := ReleaseStep(s, operation, hasGateway, first, env);
            && w'.db.authority == Release(w, s, operation, hasGateway, first, env).0.db.authority
            && (Applies(w, step) ==> Snapshot(w'.db.authority).Success? && w'.running == Shown(Snapshot(w'.db.authority).value, p))
            && (!Applies(w, step) ==> w'.running == w.running)
  {
    hide Snapshot, ClaimAndReconcile, Released, ReleaseKeyOf, FindKey, Blocked;
    if s in w.db.subscriptions && s in w.db.authority.bindings && !Blocked(w.db) && first.Acked? && hasGateway {
      var (proposed, id) := ReleaseProposed(w.db, s, operation, env.now);
      assert proposed.authority == Released(w.db.authority, s);
      AttemptShows(w.(db := proposed), id, env);
      AttemptShows(w.(db := proposed), id, env.(projection := p));
    }
  }

  lemma PurchaseShows(w: World, r: Request, env: PurchaseEnv, p: Projection)
    ensures var w' := Purchase(w, r, env.(run := env.run.(projection := p))).0;
            var step := PurchaseStep(r, env);
            && w'.db.authority == Purchase(w, r, env).0.db.authority
            && (Applies(w, step) ==> Snapshot(w'.db.authority).Success? && w'.running == Shown(Snapshot(w'.db.authority).value, p))
            && (!Applies(w, step) ==> w'.running == w.running)
  {
    hide Snapshot, ClaimAndReconcile, PurchaseProposed, Blocked, ClassifyFirst;
    var started := w.(db := GatewayQueue.Started(w.db, r.subscription));
    if env.paid.Acked? && env.locked && !Blocked(started.db) && env.flushed {
      var proposed := PurchaseProposed(started.db, r, env.run.now);
      if proposed.Some? && env.first.Acked? {
        var (db', id) := proposed.value;
        PurchaseWrites(started.db, r, env.run.now);
        AttemptShows(started.(db := db'), id, env.run);
        AttemptShows(started.(db := db'), id, env.run.(projection := p));
      }
    }
  }

  // --------------------------------------------------------- the real gateway

  /** How an apply of the provider looks to the queue. Whatever it may have left behind after its first
      mutation is unknown to the queue. */
  function ProjectionOf(e: Xray.Ended, before: Option<Desired>): Projection {
    match e.outcome
    case Returned => Confirmed
    case Rejected => NotConfirmed(before)
    case Died => Killed(None)
    case RolledBack => NotConfirmed(None)
    case Marked => NotConfirmed(None)
    case MarkerFailed => NotConfirmed(None)
  }

  /** `render` is the file the provider writes for a desired state. */
  function Moved(site: Site, m: Move, render: Desired -> Xray.Config): Site {
    match m
    case Deploy(op) => site.(x := Xray.Step(site.x, op))
    case Order(s, answers) =>
      if !Applies(site.w, s) then site.(w := Next(site.w, s))
      else
        StepShows(site.w, s, Confirmed);
        var e := Xray.Apply(site.x, render(Snapshot(Next(site.w, s).db.authority).value), answers);
        Site(Next(site.w, Projecting(s, ProjectionOf(e, site.w.running))), e.shared)
  }

  function Served(site: Site, moves: seq<Move>, render: Desired -> Xray.Config): Site
    decreases |moves|
  {
    if moves == [] then site else Served(Moved(site, moves[0], render), moves[1..], render)
  }

  /** Orders are new operations, and the deployment only promotes and renders. */
  ghost predicate Allowed(site: Site, moves: seq<Move>, render: Desired -> Xray.Config)
    decreases |moves|
  {
    moves == [] ||
    (&& (moves[0].Order? ==> NewOperation(site.w.db, moves[0].step))
     && (moves[0].Deploy? ==> !moves[0].op.ApplyOp?)
     && Allowed(Moved(site, moves[0], render), moves[1..], render))
  }

  /** The process runs the file of the routes that the queue believes in. */
  predicate Faithful(site: Site, render: Desired -> Xray.Config) {
    site.w.running.Some? ==> site.x.process == Some(render(site.w.running.value))
  }

  lemma MoveKeeps(site: Site, m: Move, render: Desired -> Xray.Config)
    requires WorldInv(site.w) && Faithful(site, render)
    requires m.Order? ==> NewOperation(site.w.db, m.step)
    requires m.Deploy? ==> !m.op.ApplyOp?
    ensures var after := Moved(site, m, render);
            WorldInv(after.w) && Final(site.w.db, after.w.db) && Faithful(after, render)
  {
    hide WorldInv, Final, Next, Snapshot, Applies, Xray.Apply, NewOperation;
    if m.Order? {
      if Applies(site.w, m.step) {
        StepShows(site.w, m.step, Confirmed);
        var d := Snapshot(Next(site.w, m.step).db.authority).value;
        var e := Xray.Apply(site.x, render(d), m.answers);
        var p := ProjectionOf(e, site.w.running);
        Xray.ApplyOutcomes(site.x, render(d), m.answers);
        StepShows(site.w, m.step, p);
        StillNew(site.w.db, m.step, p);
        NextKeeps(site.w, Projecting(m.step, p));
      } else {
        NextKeeps(site.w, m.step);
        StepShows(site.w, m.step, Killed(None));
        NothingShown(site.w, m.step);
      }
    } else {
      FinalSelf(site.w.db);
    }
  }

  lemma FinalSelf(db: Db)
    ensures Final(db, db)
  {
  }

  lemma StillNew(db: Db, s: Step, p: Projection)
    requires NewOperation(db, s)
    ensures NewOperation(db, Projecting(s, p))
  {
  }

  lemma NothingShown(w: World, s: Step)
    requires !Applies(w, s)
    ensures Next(w, s).running == w.running
  {
    hide Next, Applies;
    match s {
      case HoldStep(_, _, _) => StepShows(w, s, Confirmed);
      case RecoverStep(env) => StepShows(w, s, env.projection);
      case ReleaseStep(_, _, _, _, env) => StepShows(w, s, env.projection);
      case PurchaseStep(_, env) => StepShows(w, s, env.run.projection);
    }
  }

  /** Over every run of orders, recoveries, promotions and renders, whatever the commits and the calls
      of the gateway answer: with no intent unresolved the process runs the file of the committed
      snapshot. */
  lemma {:induction false} ProcessRunsCommitted(site: Site, moves: seq<Move>, render: Desired -> Xray.Config)
    requires WorldInv(site.w) && Faithful(site, render) && Allowed(site, moves, render)
    ensures var after := Served(site, moves, render);
            && WorldInv(after.w) && Faithful(after, render)
            && (!Blocked(after.w.db) ==>
                  && Snapshot(after.w.db.authority).Success?
                  && after.x.process == Some(render(Snapshot(after.w.db.authority).value)))
    decreases |moves|
  {
    hide Moved, Snapshot, NewOperation, Inv;
    if moves != [] {
      MoveKeeps(site, moves[0], render);
      ProcessRunsCommitted(Moved(site, moves[0], render), moves[1..], render);
    }
  }

  // ---------------------------------------------------------- clean orders

  /** Answers of a gateway on which nothing goes wrong. */
  predicate CleanAnswers(c: Xray.Config, answers: Xray.Env) {
    && answers.backup && answers.readable && answers.newUserRouted && answers.test.Passes?
    && Xray.SaveAttempted(c, answers) && answers.save.Returns?
  }

  /** The file a step that reaches `apply` hands to the provider. */
  function CandidateOf(w: World, s: Step, render: Desired -> Xray.Config): Xray.Config
    requires Applies(w, s)
  {
    StepShows(w, s, Confirmed);
    render(Snapshot(Next(w, s).db.authority).value)
  }

  /** A step that reaches `apply` over a file at its baseline, with clean answers, leaves file, process
      and baseline at its candidate, and the queue sees a confirmed projection. */
  lemma CleanAnswersServe(site: Site, s: Step, answers: Xray.Env, render: Desired -> Xray.Config)
    requires Applies(site.w, s) && Xray.MatchesBaseline(site.x)
    requires CandidateOf(site.w, s, render).owned && CleanAnswers(CandidateOf(site.w, s, render), answers)
    ensures var after := Moved(site, Order(s, answers), render);
            var c := CandidateOf(site.w, s, render);
            && after.x == Xray.Shared(Some(c), Some(c), Xray.Applied(c.content))
            && after.w == Next(site.w, Projecting(s, Confirmed))
  {
    hide Next, Applies, Snapshot, Xray.MatchesBaseline;
    var c := CandidateOf(site.w, s, render);
    Xray.EndingsExactly(site.x, c, answers);
    Xray.ApplyOutcomes(site.x, c, answers);
  }

  /** The settled site: no intent unresolved, and the process on the file of the committed routes. */
  ghost predicate Settles(site: Site, render: Desired -> Xray.Config) {
    && !Blocked(site.w.db) && Snapshot(site.w.db.authority).Success?
    && var c := render(Snapshot(site.w.db.authority).value);
       site.x == Xray.Shared(Some(c), Some(c), Xray.Applied(c.content))
  }

  /** A new order in which nothing fails, over a gateway at its baseline, settles the site. */
  lemma CleanPurchaseServes(site: Site, r: Request, env: PurchaseEnv, answers: Xray.Env, render: Desired -> Xray.Config)
    requires WorldInv(site.w) && Xray.MatchesBaseline(site.x)
    requires !Blocked(site.w.db) && !HasKey(site.w.db, PurchaseKey(r.subscription))
    requires Bound(site.w.db, r).Some? && Snapshot(PurchasedAuthority(site.w.db, r)).Success?
    requires env.paid.Acked? && env.locked && env.flushed && env.first.Acked? && CleanEnv(env.run)
    requires var c := render(Snapshot(PurchasedAuthority(site.w.db, r)).value); c.owned && CleanAnswers(c, answers)
    ensures var after := Moved(site, Order(PurchaseStep(r, env), answers), render);
            && Settles(after, render) && after.w.db.authority == PurchasedAuthority(site.w.db, r)
            && Purchase(site.w, r, env).1.Provisioned?
  {
    hide Snapshot, WorldInv, Purchase, Moved, Xray.MatchesBaseline, HasKey, CleanAnswers, Released;
    var s := PurchaseStep(r, env);
    CleanPurchaseIsProvisioned(site.w, r, env);
    CleanPurchaseApplies(site.w, r, env);
    assert Projecting(s, Confirmed) == s;
    CleanAnswersServe(site, s, answers, render);
  }

  lemma CleanPurchaseApplies(w: World, r: Request, env: PurchaseEnv)
    requires !Blocked(w.db) && Bound(w.db, r).Some? && Snapshot(PurchasedAuthority(w.db, r)).Success?
    requires env.paid.Acked? && env.locked && env.flushed && env.first.Acked? && CleanEnv(env.run)
    ensures Applies(w, PurchaseStep(r, env))
  {
    hide Snapshot, EnsureRoute, FindKey;
    var started := GatewayQueue.Started(w.db, r.subscription);
    assert Bound(started, r).value.authority == Bound(w.db, r).value.authority;
  }

  /** A new release in which nothing fails settles the site as well. */
  lemma CleanReleaseServes(
    site: Site, s: nat, operation: Option<string>, first: Commit, env: Env, answers: Xray.Env, render: Desired -> Xray.Config
  )
    requires WorldInv(site.w) && Xray.MatchesBaseline(site.x)
    requires !Blocked(site.w.db) && s in site.w.db.subscriptions && s in site.w.db.authority.bindings
    requires NewOperation(site.w.db, ReleaseStep(s, operation, true, first, env))
    requires Snapshot(Released(site.w.db.authority, s)).Success? && first.Acked? && CleanEnv(env)
    requires var c := render(Snapshot(Released(site.w.db.authority, s)).value); c.owned && CleanAnswers(c, answers)
    ensures var after := Moved(site, Order(ReleaseStep(s, operation, true, first, env), answers), render);
            Settles(after, render) && after.w.db.authority == Released(site.w.db.authority, s)
  {
    hide Snapshot, WorldInv, Release, Moved, Xray.MatchesBaseline, HasKey, CleanAnswers, Released, NewOperation, Blocked;
    var step := ReleaseStep(s, operation, true, first, env);
    CleanReleaseSettles(site.w, s, operation, first, env);
    assert Projecting(step, Confirmed) == step;
    CleanAnswersServe(site, step, answers, render);
  }

  /** A recovery in which nothing fails settles the site, whatever was left unresolved. */
  lemma CleanRecoveryServes(site: Site, env: Env, answers: Xray.Env, render: Desired -> Xray.Config)
    requires WorldInv(site.w) && Xray.MatchesBaseline(site.x)
    requires FirstClaimable(site.w.db, env.now, 0).Some? && Snapshot(site.w.db.authority).Success? && CleanEnv(env)
    requires var c := render(Snapshot(site.w.db.authority).value); c.owned && CleanAnswers(c, answers)
    ensures Settles(Moved(site, Order(RecoverStep(env), answers), render), render)
  {
    hide Snapshot, WorldInv, Recover, Moved, Xray.MatchesBaseline, CleanAnswers, Blocked;
    var step := RecoverStep(env);
    CleanRecoverySettles(site.w, env);
    RecoverShows(site.w, env, Confirmed);
    assert Projecting(step, Confirmed) == step;
    CleanAnswersServe(site, step, answers, render);
  }

  // ------------------------------------------------------------ the document

  ghost function DocumentOf(d: Desired, credentials: Credentials, deployment: Deployment): (r: Option<Document>)
    ensures r.Some? ==> IsComposition(r.value, d, credentials, deployment)
    ensures r.None? ==> forall doc :: !IsComposition(doc, d, credentials, deployment)
  {
    if exists doc :: IsComposition(doc, d, credentials, deployment) then
      var doc :| IsComposition(doc, d, credentials, deployment);
      Some(doc)
    else None
  }

  /** The file of a desired state: the text of its composition, which the repository recognizes as its
      own when it validates. */
  ghost function FileOf(text: Document -> string, credentials: Credentials, deployment: Deployment): Desired -> Xray.Config {
    (d: Desired) =>
      var doc := DocumentOf(d, credentials, deployment);
      if doc.None? then Xray.Config("", false) else Xray.Config(text(doc.value), Valid(doc.value))
  }

  lemma CompositionIsUnique(doc: Document, other: Document, d: Desired, credentials: Credentials, deployment: Deployment)
    requires IsComposition(doc, d, credentials, deployment) && IsComposition(other, d, credentials, deployment)
    ensures doc == other
  {
    hide RenderRoutingRules, SocksOf, InboundOf;
    assert doc.inbounds == other.inbounds;
    forall i | 0 <= i < |doc.outbounds|
      ensures doc.outbounds[i] == other.outbounds[i]
    {
      if i > 0 {
        assert d.outbounds[i - 1].secretRef in credentials;
      }
    }
    assert doc.outbounds == other.outbounds;
  }

  lemma {:induction false} ServedWrites(site: Site, moves: seq<Move>, render: Desired -> Xray.Config)
    ensures OwnWriters(site.w.db.authority, Served(site, moves, render).w.db.authority)
    decreases |moves|
  {
    hide Next, OwnTags, Applies, Snapshot, Xray.Apply;
    if moves != [] {
      var m := moves[0];
      if m.Order? {
        NextWrites(site.w, m.step);
        StepShows(site.w, m.step, Confirmed);
      }
      if m.Order? && Applies(site.w, m.step) {
        var e := Xray.Apply(site.x, render(Snapshot(Next(site.w, m.step).db.authority).value), m.answers);
        StepShows(site.w, m.step, ProjectionOf(e, site.w.running));
      }
      ServedWrites(Moved(site, m, render), moves[1..], render);
    }
  }

  /** The gateway as it is installed: an empty database over its endpoints, and a process that runs the
      file of the empty routes. */
  ghost predicate Installed(start: Site, render: Desired -> Xray.Config) {
    && start.w == EmptyWorld(start.w.db.authority.endpoints)
    && start.x.process == Some(render(Desired(map[], [])))
  }

  /** From the beginning, over everything that happens: with no intent unresolved, the Xray process runs
      the text of a valid document that decides every tcp or udp connection by the committed rows. */
  lemma ReachableProcessServes(
    start: Site, moves: seq<Move>, text: Document -> string, credentials: Credentials, deployment: Deployment, doc: Document
  )
    requires DeploymentOk(deployment) && Installed(start, FileOf(text, credentials, deployment))
    requires Allowed(start, moves, FileOf(text, credentials, deployment))
    requires var a := Served(start, moves, FileOf(text, credentials, deployment)).w.db.authority;
             && !Blocked(Served(start, moves, FileOf(text, credentials, deployment)).w.db)
             && Snapshot(a).Success? && Pipeline.Resolved(Snapshot(a).value, credentials)
             && IsComposition(doc, Snapshot(a).value, credentials, deployment)
    ensures var after := Served(start, moves, FileOf(text, credentials, deployment));
            var d := Snapshot(after.w.db.authority).value;
            && after.x.process == Some(Xray.Config(text(doc), true)) && Valid(doc)
            && AreCommitted(after.w.db.authority, d.userRoutes)
            && (forall c: Connection | c.network in {"tcp", "udp"} ::
                  FirstMatch(doc.rules, c) == Some(Pipeline.Decision(d, c)))
  {
    hide Served, Allowed, WorldInv, GatewayQueue.Blocked, Snapshot, Valid, FirstMatch, IsComposition, OwnTags;
    hide Pipeline.Resolved, Pipeline.NoDirect, Pipeline.Decision, AreCommitted, FileOf, NewOperation;
    var render := FileOf(text, credentials, deployment);
    var endpoints := start.w.db.authority.endpoints;
    EmptyWorldAgrees(endpoints);
    EmptyTags(endpoints);
    ProcessRunsCommitted(start, moves, render);
    ServedWrites(start, moves, render);
    var a := Served(start, moves, render).w.db.authority;
    OwnTagsAreNotDirect(a);
    Pipeline.Pipeline(a, credentials, deployment, doc);
    SnapshotRoutesAreCommitted(a);
    FileOfDocument(text, credentials, deployment, doc, Snapshot(a).value);
  }

  lemma FileOfDocument(text: Document -> string, credentials: Credentials, deployment: Deployment, doc: Document, d: Desired)
    requires IsComposition(doc, d, credentials, deployment)
    ensures FileOf(text, credentials, deployment)(d) == Xray.Config(text(doc), Valid(doc))
  {
    hide IsComposition, Valid;
    CompositionIsUnique(doc, DocumentOf(d, credentials, deployment).value, d, credentials, deployment);
  }

  /** The row of a purchase: active, tagged after its endpoint, over an egress binding that names the
      credential of the request. */
  lemma PurchasedRow(db: Db, r: Request) returns (i: nat)
    requires Bound(db, r).Some?
    ensures var a := PurchasedAuthority(db, r);
            && i < |a.routes| && a.routes[i] == Route(r.subscription, r.egress, r.principal, "egress-" + Decimal(r.egress), true)
            && a.endpoints == db.authority.endpoints
            && r.subscription in a.bindings && a.bindings[r.subscription].secretRef == Some(r.secretRef)
  {
    hide Decimal;
    var b := Bound(db, r).value.authority;
    var found := FindRoute(b, r.subscription, 0);
    i := if found.Some? then found.value else |b.routes|;
  }

  /** A new order in which nothing fails is served by the socks server of its endpoint, under the very
      credential that was stored for it. */
  lemma CleanPurchaseIsServed(
    site: Site, r: Request, env: PurchaseEnv, answers: Xray.Env,
    text: Document -> string, credentials: Credentials, deployment: Deployment, doc: Document
  )
    requires WorldInv(site.w) && Xray.MatchesBaseline(site.x) && r.secretRef != "" && OwnTags(site.w.db.authority)
    requires !Blocked(site.w.db) && !HasKey(site.w.db, PurchaseKey(r.subscription))
    requires Bound(site.w.db, r).Some? && Snapshot(PurchasedAuthority(site.w.db, r)).Success?
    requires env.paid.Acked? && env.locked && env.flushed && env.first.Acked? && CleanEnv(env.run)
    requires DeploymentOk(deployment)
    requires var d := Snapshot(PurchasedAuthority(site.w.db, r)).value;
             Pipeline.Resolved(d, credentials) && IsComposition(doc, d, credentials, deployment)
    requires CleanAnswers(Xray.Config(text(doc), true), answers)
    ensures var after := Moved(site, Order(PurchaseStep(r, env), answers), FileOf(text, credentials, deployment));
            && after.x.process == Some(Xray.Config(text(doc), true))
            && FirstMatch(doc.rules, Connection(false, r.principal, "tcp")) == Some("egress-" + Decimal(r.egress))
            && r.egress in site.w.db.authority.endpoints && r.secretRef in credentials
            && Pipeline.Serves(doc, "egress-" + Decimal(r.egress), site.w.db.authority.endpoints[r.egress].host,
                               site.w.db.authority.endpoints[r.egress].port, credentials[r.secretRef])
  {
    hide Snapshot, WorldInv, Moved, Xray.MatchesBaseline, HasKey, CleanAnswers, CleanEnv, Blocked, IsComposition, Valid, Decimal;
    hide FirstMatch, Pipeline.Serves, Pipeline.Resolved, PurchasedAuthority, Bound, FileOf, Pipeline.NoDirect, OwnTags;
    var a := PurchasedAuthority(site.w.db, r);
    var d := Snapshot(a).value;
    var i := PurchasedRow(site.w.db, r);
    PurchasedTags(site.w.db, r);
    OwnTagsAreNotDirect(a);
    Pipeline.Pipeline(a, credentials, deployment, doc);
    FileOfDocument(text, credentials, deployment, doc, d);
    CleanPurchaseServes(site, r, env, answers, FileOf(text, credentials, deployment));
    Pipeline.ActiveRowIsServed(a, credentials, deployment, doc, i);
  }

  lemma PurchasedTags(db: Db, r: Request)
    requires Bound(db, r).Some? && OwnTags(db.authority)
    ensures OwnTags(PurchasedAuthority(db, r))
  {
    hide Decimal;
  }
}
