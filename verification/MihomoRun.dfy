/** One reconciliation run as a function of the durable state and of everything the environment
    answers: clock, commits, observer, provider, verifier and lock release
    (backend/app/infra/mihomo_reconciliation.py, mihomo_projection_lock.py). */
module MihomoRun {
  import opened Durable
  import opened MihomoQueue
  import opened Wrappers
  import Forwarder = MihomoForwarder

  /** What outlives a run: the database, the forwarder, and the log of jobs handed to `apply`. */
  datatype World = World(db: Db, runtime: Forwarder.Runtime, applied: seq<JobId>)

  datatype Prepare = PrepareRaises(text: string) | Prepared(revision: int, candidate: Forwarder.Candidate)

  datatype Verdict = VerifierRaises | Verdict(verified: bool, evidenceVersion: string)

  /** The environment while an unknown outcome is recorded. */
  datatype Mark = Mark(observerWorks: bool, readRaises: bool, ensureRaises: bool, commit: Commit)

  /** The environment of `mihomo_projection_write` on the way out. `unlocked` says that
      RELEASE_LOCK returned 1. */
  datatype Release = Release(ensureRaises: bool, commit: Commit, unlocked: bool, note: Commit, resolve: Commit)

  datatype Env = Env(
    now: int,
    later: int,
    claim: Commit,
    reset: Commit,
    prepare: Prepare,
    script: Forwarder.Script,
    verdict: Verdict,
    ensureRaises: bool,
    finalize: Commit,
    observerWorks: bool,
    mark: Mark,
    failure: Commit,
    failureAgain: Commit,
    release: Release)

  datatype Result = Result(id: JobId, applied: bool, finalized: bool, retryable: bool, reason: Option<Code>)

  /** How control leaves a stage: a result, an exception, or the death of the process. */
  datatype Signal = Returned(result: Option<Result>) | Raised | Crashed

  /** The release metadata of the session: the claimed job and, once parsed, its identity. */
  datatype Metadata = Metadata(source: JobId, identity: Option<Identity>)

  /** What became of the run, for the statements about it. */
  datatype Fate = Idle | Held | Settled | Uncertain

  /** The session when a stage ends. `unknown` is SESSION_INFO_DURABLE_STATE_UNKNOWN_KEY. */
  datatype Stage = Stage(world: World, signal: Signal, metadata: Option<Metadata>, unknown: bool, fate: Fate)

  const RUNTIME_FAILURE := Other("MIHOMO_RECONCILIATION_RUNTIME_FAILURE")
  const STALE_SNAPSHOT := Other("MIHOMO_STALE_DESIRED_SNAPSHOT")
  const ROLLBACK_VERIFIED := Other("MIHOMO_ROLLBACK_VERIFIED")

  function Signalled(commit: Commit, result: Option<Result>): Signal {
    if commit.Acked? then Returned(result) else if commit.Raises() then Raised else Crashed
  }

  // ------------------------------------------------------------ the stages

  function Fail(w: World, id: JobId, code: Code, now: int, commit: Commit): (World, Signal)
    requires id in w.db.jobs
  {
    var exhausted := w.db.jobs[id].attempts >= w.db.jobs[id].maxAttempts;
    (w.(db := After(w.db, FailedRow(w.db, id, code, now), commit)),
     Signalled(commit, Some(Result(id, false, false, !exhausted, Some(code)))))
  }

  /** A `_failure` inside the guarded block: when its own commit raises, the outermost handler
      calls it once more. */
  function FailGuarded(w: World, id: JobId, code: Code, env: Env): (World, Signal)
    requires id in w.db.jobs
  {
    var first := Fail(w, id, code, env.later, env.failure);
    if first.1.Raised? then Fail(first.0, id, RUNTIME_FAILURE, env.later, env.failureAgain) else first
  }

  function PersistUnknownBlocker(
    w: World, proposed: Db, id: JobId, identity: Option<Identity>, diagnostic: Code, applied: bool, m: Mark
  ): Stage
  {
    var meta := Some(Metadata(id, identity));
    var guard := OpenFinalization(proposed, id, identity, diagnostic);
    if m.ensureRaises || guard.None? then Stage(w, Raised, meta, true, Uncertain)
    else
      Stage(w.(db := After(w.db, guard.value, m.commit)),
            Signalled(m.commit, Some(Result(id, applied, false, false, Some(diagnostic)))),
            meta, m.commit.Raises(), Uncertain)
  }

  function MarkUnknown(
    w: World, id: JobId, i: Identity, fingerprint: string, diagnostic: Code, persist: bool, now: int, m: Mark
  ): Stage
  {
    var meta := Some(Metadata(id, Some(i)));
    var landed := Stage(w, Returned(Some(Result(id, true, true, false, None))), meta, false, Settled);
    if Classify(w.db, id, i, fingerprint, m.observerWorks).LANDED? then landed
    else if m.readRaises then Stage(w, Raised, meta, true, Uncertain)
    else if ExactSuccess(w.db, id, i, fingerprint) then landed
    else if !ExactClaim(w.db, id, i) then PersistUnknownBlocker(w, w.db, id, Some(i), diagnostic, true, m)
    else
      var marked := MarkedRow(w.db, id, diagnostic, now);
      if persist then PersistUnknownBlocker(w, marked, id, Some(i), diagnostic, true, m)
      else
        Stage(w.(db := After(w.db, marked, m.commit)),
              Signalled(m.commit, Some(Result(id, true, false, false, Some(diagnostic)))),
              meta, m.commit.Raises(), Uncertain)
  }

  /** Success, evidence and the open release blocker in one transaction. */
  function FinalizedDb(db: Db, id: JobId, e: Evidence): Option<Db>
    requires id in db.jobs
  {
    OpenRelease(SucceededRow(db, id, e), id, Some(e.identity))
  }

  function Finalize(w: World, id: JobId, e: Evidence, env: Env): Stage
    requires id in w.db.jobs
  {
    var meta := Some(Metadata(id, Some(e.identity)));
    var success := Returned(Some(Result(id, true, true, false, None)));
    var proposed := FinalizedDb(w.db, id, e);
    var attempted := !env.ensureRaises && proposed.Some?;
    var w' := if attempted then w.(db := After(w.db, proposed.value, env.finalize)) else w;
    if attempted && env.finalize.Acked? then Stage(w', success, meta, false, Settled)
    else if attempted && env.finalize.Crashes() then Stage(w', Crashed, meta, false, Settled)
    else
      match Classify(w'.db, id, e.identity, e.fingerprint, env.observerWorks)
      case LANDED => Stage(w', success, meta, false, Settled)
      case ABSENT =>
        var failed := FailGuarded(w', id, RUNTIME_FAILURE, env);
        Stage(failed.0, failed.1, meta, false, Settled)
      case UNKNOWN =>
        MarkUnknown(w', id, e.identity, e.fingerprint, FinalizationUnknown, false, env.later, env.mark)
  }

  /** From a claimed, unblocked row with a valid payload to the end of the guarded block. */
  function Project(w: World, id: JobId, i: Identity, env: Env): Stage
    requires id in w.db.jobs
  {
    var meta := Some(Metadata(id, Some(i)));
    if env.prepare.PrepareRaises? then
      var failed := Fail(w, id, Other(env.prepare.text), env.later, env.failure);
      Stage(failed.0, failed.1, meta, false, Settled)
    else if env.prepare.revision != i.revision then
      var failed := Fail(w, id, STALE_SNAPSHOT, env.later, env.failure);
      Stage(failed.0, failed.1, meta, false, Settled)
    else
      var candidate := env.prepare.candidate;
      var p := Forwarder.Apply(w.runtime, candidate, env.script);
      Projected(World(w.db, p.runtime, w.applied + [id]), id, i, candidate, p.outcome, env)
  }

  /** The branches on the outcome of `apply` and of the verifier. */
  function Projected(w: World, id: JobId, i: Identity, c: Forwarder.Candidate, o: Forwarder.Outcome, env: Env): Stage
    requires id in w.db.jobs
  {
    var meta := Some(Metadata(id, Some(i)));
    match o
    case Died => Stage(w, Crashed, meta, false, Settled)
    case RollbackUnknown =>
      MarkUnknown(w, id, i, c.version, Code.RollbackUnknown, false, env.later, env.mark)
    case RollbackVerified =>
      var failed := FailGuarded(w, id, ROLLBACK_VERIFIED, env);
      Stage(failed.0, failed.1, meta, false, Settled)
    case Refused =>
      var failed := Fail(w, id, RUNTIME_FAILURE, env.later, env.failure);
      Stage(failed.0, failed.1, meta, false, Settled)
    case Unconfirmed =>
      MarkUnknown(w, id, i, c.version, RuntimeUnknown, true, env.later, env.mark)
    case Applied =>
      if env.verdict.VerifierRaises? || !env.verdict.verified || !ValidEvidenceVersion(env.verdict.evidenceVersion) then
        MarkUnknown(w, id, i, c.version, RuntimeUnknown, false, env.later, env.mark)
      else
        Finalize(w, id, Evidence(i, c.version, env.verdict.evidenceVersion), env)
  }

  /** The body of `reconcile_mihomo_job` under the projection lock. */
  function Body(w: World, env: Env): Stage {
    match FirstClaimable(w.db, env.now, 0)
    case None => Stage(w, Returned(None), None, false, Idle)
    case Some(id) =>
      var claimed := w.(db := After(w.db, Claimed(w.db, id, env.now), env.claim));
      if !env.claim.Acked? then Stage(claimed, Signalled(env.claim, None), None, false, Idle)
      else if Blocked(claimed.db, id) then
        Stage(claimed.(db := After(claimed.db, Unclaimed(claimed.db, id), env.reset)),
              Signalled(env.reset, None), None, false, Held)
      else
        var payload := claimed.db.jobs[id].payload;
        if !ValidPayload(payload) then
          PersistUnknownBlocker(claimed, claimed.db, id, None, FinalizationUnknown, false, env.mark)
        else Project(claimed, id, payload.identity, env)
  }

  /** `mihomo_projection_write` on the way out: blocker before release, resolve only after a
      confirmed release of a run without unknown durable state. */
  function Unlock(s: Stage, r: Release): (World, Signal) {
    if s.signal.Crashed? then (s.world, Crashed)
    else if s.metadata.None? then (s.world, if r.unlocked then s.signal else Raised)
    else
      var id := s.metadata.value.source;
      var key := BlockerKey(LockRelease, id);
      var guard := OpenRelease(s.world.db, id, s.metadata.value.identity);
      if r.ensureRaises || guard.None? then (s.world, Raised)
      else
        var proposed := if s.unknown then Annotated(guard.value, key, DurableStateUnknown) else guard.value;
        var guarded := s.world.(db := After(s.world.db, proposed, r.commit));
        if !r.commit.Acked? then (guarded, Signalled(r.commit, None))
        else if !r.unlocked then
          (guarded.(db := After(guarded.db, Annotated(guarded.db, key, ReleaseUnknown), r.note)),
           if r.note.Crashes() then Crashed else Raised)
        else if s.unknown then (guarded, s.signal)
        else
          (guarded.(db := After(guarded.db, Resolved(guarded.db, key), r.resolve)),
           if r.resolve.Acked? then s.signal else Signalled(r.resolve, None))
  }

  function Reconcile(w: World, env: Env): (World, Signal) {
    Unlock(Body(w, env), env.release)
  }

  // ------------------------------------------------------------- whole runs

  /** Everything that happens to the queue: a preparation enqueues an intent, or a worker runs. */
  datatype Step = Enqueue(identity: Identity, now: int, commit: Commit) | Work(env: Env)

  /** `enqueue_mihomo_reconciliation` inside its own transaction: an existing row of the same
      operation is reused or refused, so only a new operation adds a row. */
  function EnqueueStep(db: Db, i: Identity, now: int, commit: Commit): Db {
    if !ValidIdentity(i) || (exists id | id in db.jobs :: OwnedBy(db.jobs[id], i.operationId)) then db
    else After(db, Enqueued(db, i, now), commit)
  }

  predicate OwnedBy(j: Job, operationId: string) {
    j.payload.Intent? && j.payload.identity.operationId == operationId
  }

  function Next(w: World, s: Step): World {
    match s
    case Enqueue(i, now, commit) => w.(db := EnqueueStep(w.db, i, now, commit))
    case Work(env) => Reconcile(w, env).0
  }

  function Exec(w: World, steps: seq<Step>): World
    decreases |steps|
  {
    if steps == [] then w else Exec(Next(w, steps[0]), steps[1..])
  }
}
