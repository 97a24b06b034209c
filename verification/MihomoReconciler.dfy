/** The worker itself: a session over the durable queue, changed in place between commits and
    rollbacks, proved step by step against the run of module MihomoRun. */
module MihomoReconciler {
  import opened Durable
  import opened Limits
  import opened MihomoQueue
  import opened MihomoRun
  import opened Wrappers
  import Forwarder = MihomoForwarder

  predicate Owned(db: Db, operation: string) {
    exists id | id in db.jobs :: OwnedBy(db.jobs[id], operation)
  }

  predicate IsRowOf(db: Db, id: JobId, i: Identity) {
    id in db.jobs && db.jobs[id].payload.Intent? && db.jobs[id].payload.identity == i
  }

  /** A row of the same operation with another kind or revision. */
  predicate IsMismatch(j: Job, i: Identity) {
    OwnedBy(j, i.operationId) && j.payload.identity != i
  }

  class Reconciler {
    var durable: Db                    // what any other connection reads
    var work: Db                       // the same rows as this session sees and edits them
    var metadata: Option<Metadata>     // session.info: release metadata
    var unknown: bool                  // session.info: durable state unknown
    var applied: seq<JobId>            // jobs handed to the provider, in order
    const provider: Forwarder.Provider

    constructor (db: Db, provider: Forwarder.Provider)
      ensures durable == work == db && metadata == None && !unknown && applied == []
      ensures this.provider == provider
    {
      durable, work, metadata, unknown, applied := db, db, None, false, [];
      this.provider := provider;
    }

    function State(): World
      reads this, provider
    {
      World(durable, provider.State(), applied)
    }

    method Commit(c: Commit)
      modifies this`durable
      ensures durable == After(old(durable), work, c)
    {
      if c.Lands() {
        durable := work;
      }
    }

    method Rollback()
      modifies this`work
      ensures work == durable
    {
      work := durable;
    }

    /** `enqueue_mihomo_reconciliation` in a transaction of its own: the new row of a new operation, the
        row of an operation that is enqueued again, and None for the exception. */
    method EnqueueReconciliation(i: Identity, now: int, c: Commit) returns (row: Option<JobId>)
      requires work == durable
      modifies this`durable, this`work
      ensures durable == EnqueueStep(old(durable), i, now, c) && work == durable
      ensures row.Some? ==> row == Some(old(durable).nextId) || IsRowOf(old(durable), row.value, i)
      ensures ValidIdentity(i) && !Owned(old(durable), i.operationId) ==> row == Some(old(durable).nextId)
      ensures row.None? ==> !ValidIdentity(i) || exists id :: id in old(durable).jobs && IsMismatch(old(durable).jobs[id], i)
      ensures !ValidIdentity(i) ==> row.None?
    {
      if !ValidIdentity(i) {
        return None;
      }
      if exists id | id in work.jobs :: OwnedBy(work.jobs[id], i.operationId) {
        var id :| id in work.jobs && OwnedBy(work.jobs[id], i.operationId);
        return if work.jobs[id].payload.identity == i then Some(id) else None;
      }
      row := Some(work.nextId);
      work := work.(jobs := work.jobs[work.nextId := Job(Pending, 0, RETRY_LIMIT, now, None, None, Intent(i, None))],
                    nextId := work.nextId + 1);
      Commit(c);
      Rollback();
    }

    /** `_claim`: the first claimable row, taken and committed. */
    method Claim(now: int, c: Commit) returns (job: Option<JobId>, signal: Signal)
      requires work == durable
      modifies this`durable, this`work
      ensures job == FirstClaimable(old(durable), now, 0)
      ensures job.None? ==> durable == work == old(durable) && signal == Returned(None)
      ensures job.Some? ==>
                && work == Claimed(old(durable), job.value, now)
                && durable == After(old(durable), work, c) && signal == Signalled(c, None)
    {
      var id := 0;
      while id < work.nextId && !(id in work.jobs && Claimable(work.jobs[id], now))
        invariant 0 <= id
        invariant FirstClaimable(work, now, 0) == FirstClaimable(work, now, id)
      {
        id := id + 1;
      }
      if id >= work.nextId {
        return None, Returned(None);
      }
      var j := work.jobs[id];
      work := work.(jobs := work.jobs[id := j.(status := Running, lockedAt := Some(now), attempts := j.attempts + 1)]);
      Commit(c);
      return Some(id), Signalled(c, None);
    }

    /** `_reset_blocked_claim`. */
    method ResetBlockedClaim(id: JobId, c: Commit) returns (signal: Signal)
      requires id in durable.jobs && durable.jobs[id].status.Running?
      modifies this`durable, this`work
      ensures durable == After(old(durable), Unclaimed(old(durable), id), c)
      ensures signal == Signalled(c, None)
    {
      Rollback();
      var j := work.jobs[id];
      var attempts := if j.attempts == 0 then 0 else j.attempts - 1;
      work := work.(jobs := work.jobs[id := j.(status := Pending, lockedAt := None, attempts := attempts)]);
      Commit(c);
      signal := Signalled(c, None);
    }

    /** `_failure`. */
    method Failure(id: JobId, code: Code, now: int, c: Commit) returns (signal: Signal)
      requires id in durable.jobs
      modifies this`durable, this`work
      ensures (State(), signal) == Fail(old(State()), id, code, now, c)
    {
      Rollback();
      var j := work.jobs[id];
      var exhausted := j.attempts >= j.maxAttempts;
      work := work.(jobs := work.jobs[id := j.(status := Failed, lockedAt := None, error := Some(code),
                                              availableAt := now + 60 * BackoffMinutes(j.attempts))]);
      Commit(c);
      signal := Signalled(c, Some(Result(id, false, false, !exhausted, Some(code))));
    }

    method FailureGuarded(id: JobId, code: Code, env: Env) returns (signal: Signal)
      requires id in durable.jobs
      modifies this`durable, this`work
      ensures (State(), signal) == FailGuarded(old(State()), id, code, env)
    {
      signal := Failure(id, code, env.later, env.failure);
      if signal.Raised? {
        signal := Failure(id, RUNTIME_FAILURE, env.later, env.failureAgain);
      }
    }

    /** `ensure_mihomo_blocker` on the rows of this session. */
    method EnsureBlocker(key: BlockerKey, origin: Origin) returns (raised: bool)
      modifies this`work
      ensures var guard := MihomoQueue.EnsureBlocker(old(work), key, origin);
              raised == guard.None? && work == (if raised then old(work) else guard.value)
    {
      if !ValidOrigin(origin) {
        return true;
      }
      if key in work.blockers {
        var existing := work.blockers[key];
        if existing.origin != origin {
          return true;
        }
        if existing.status.Succeeded? {
          work := work.(blockers := work.blockers[key := existing.(status := Pending, note := None)]);
        }
        return false;
      }
      work := work.(blockers := work.blockers[key := Blocker(Pending, origin, None)]);
      return false;
    }

    /** `_persist_unknown_blocker`: the pending rows of the session and the blocker, together. */
    method PersistUnknown(id: JobId, identity: Option<Identity>, diagnostic: Code, applied: bool, m: Mark)
      returns (signal: Signal)
      requires metadata == Some(Metadata(id, identity)) && !unknown
      modifies this`durable, this`work, this`unknown
      ensures var s := PersistUnknownBlocker(old(State()), old(work), id, identity, diagnostic, applied, m);
              State() == s.world && signal == s.signal && unknown == s.unknown
    {
      var origin := if identity.None? then Origin(None, None, Diagnosed(diagnostic))
        else Origin(Some(identity.value.operationId), Some(identity.value.revision), Diagnosed(diagnostic));
      var refused := m.ensureRaises;
      if !refused {
        refused := EnsureBlocker(BlockerKey(Finalization, id), origin);
      }
      if refused {
        unknown := true;
        return Raised;
      }
      Commit(m.commit);
      unknown := m.commit.Raises();
      signal := Signalled(m.commit, Some(Result(id, applied, false, false, Some(diagnostic))));
    }

    /** `_mark_unknown` around `_mark_unknown_inner`. */
    method MarkUnknown(id: JobId, i: Identity, fingerprint: string, diagnostic: Code, persist: bool, now: int, m: Mark)
      returns (signal: Signal)
      requires metadata == Some(Metadata(id, Some(i))) && !unknown
      modifies this`durable, this`work, this`unknown
      ensures var s := MihomoRun.MarkUnknown(old(State()), id, i, fingerprint, diagnostic, persist, now, m);
              State() == s.world && signal == s.signal && unknown == s.unknown && metadata == s.metadata
    {
      if Classify(durable, id, i, fingerprint, m.observerWorks).LANDED? {
        return Returned(Some(Result(id, true, true, false, None)));
      }
      Rollback();
      if m.readRaises {
        unknown := true;
        return Raised;
      }
      if ExactSuccess(work, id, i, fingerprint) {
        return Returned(Some(Result(id, true, true, false, None)));
      }
      if !ExactClaim(work, id, i) {
        signal := PersistUnknown(id, Some(i), diagnostic, true, m);
        return;
      }
      var j := work.jobs[id];
      work := work.(jobs := work.jobs[id := j.(status := Running, lockedAt := Some(now), error := Some(diagnostic))]);
      if persist {
        signal := PersistUnknown(id, Some(i), diagnostic, true, m);
        return;
      }
      Commit(m.commit);
      unknown := m.commit.Raises();
      signal := Signalled(m.commit, Some(Result(id, true, false, false, Some(diagnostic))));
    }

    /** The finalization boundary and its commit-error branches. */
    method FinalizeJob(id: JobId, e: Evidence, env: Env) returns (signal: Signal)
      requires metadata == Some(Metadata(id, Some(e.identity))) && !unknown
      requires id in durable.jobs && work == durable
      modifies this`durable, this`work, this`unknown
      ensures var s := Finalize(old(State()), id, e, env);
              State() == s.world && signal == s.signal && unknown == s.unknown && metadata == s.metadata
    {
      var j := work.jobs[id];
      work := work.(jobs := work.jobs[id := j.(status := Succeeded, lockedAt := None, error := None,
                                              payload := Intent(e.identity, Some(e)))]);
      assert work == SucceededRow(durable, id, e);
      var refused := env.ensureRaises;
      if !refused {
        refused := EnsureBlocker(BlockerKey(LockRelease, id),
                                 Origin(Some(e.identity.operationId), Some(e.identity.revision), ReleasePending));
      }
      if !refused {
        Commit(env.finalize);
        if env.finalize.Acked? {
          return Returned(Some(Result(id, true, true, false, None)));
        }
        if env.finalize.Crashes() {
          return Crashed;
        }
      }
      Rollback();
      match Classify(durable, id, e.identity, e.fingerprint, env.observerWorks) {
        case LANDED =>
          signal := Returned(Some(Result(id, true, true, false, None)));
        case ABSENT =>
          signal := FailureGuarded(id, RUNTIME_FAILURE, env);
        case UNKNOWN =>
          signal := MarkUnknown(id, e.identity, e.fingerprint, FinalizationUnknown, false, env.later, env.mark);
      }
    }

    /** Load, render, finalize, apply, verify, and record the outcome. */
    method ProjectJob(id: JobId, i: Identity, env: Env) returns (signal: Signal)
      requires metadata == Some(Metadata(id, Some(i))) && !unknown
      requires id in durable.jobs && work == durable
      modifies this`durable, this`work, this`unknown, this`applied, provider
      ensures var s := Project(old(State()), id, i, env);
              State() == s.world && signal == s.signal && unknown == s.unknown && metadata == s.metadata
    {
      if env.prepare.PrepareRaises? {
        signal := Failure(id, Other(env.prepare.text), env.later, env.failure);
        return;
      }
      if env.prepare.revision != i.revision {
        signal := Failure(id, STALE_SNAPSHOT, env.later, env.failure);
        return;
      }
      var candidate := env.prepare.candidate;
      applied := applied + [id];
      var outcome := provider.ApplyCandidate(candidate, env.script);
      match outcome {
        case Died =>
          signal := Crashed;
        case RollbackUnknown =>
          signal := MarkUnknown(id, i, candidate.version, Code.RollbackUnknown, false, env.later, env.mark);
        case RollbackVerified =>
          signal := FailureGuarded(id, ROLLBACK_VERIFIED, env);
        case Refused =>
          signal := Failure(id, RUNTIME_FAILURE, env.later, env.failure);
        case Unconfirmed =>
          signal := MarkUnknown(id, i, candidate.version, RuntimeUnknown, true, env.later, env.mark);
        case Applied =>
          if env.verdict.VerifierRaises? || !env.verdict.verified || !ValidEvidenceVersion(env.verdict.evidenceVersion) {
            signal := MarkUnknown(id, i, candidate.version, RuntimeUnknown, false, env.later, env.mark);
          } else {
            signal := FinalizeJob(id, Evidence(i, candidate.version, env.verdict.evidenceVersion), env);
          }
      }
    }

    /** The body of `reconcile_mihomo_job`, with the lock held. */
    method ReconcileUnderLock(env: Env) returns (signal: Signal)
      requires work == durable && metadata.None? && !unknown
      modifies this, provider
      ensures var s := Body(old(State()), env);
              State() == s.world && signal == s.signal && unknown == s.unknown && metadata == s.metadata
    {
      var job;
      job, signal := Claim(env.now, env.claim);
      if job.None? || !signal.Returned? {
        return;
      }
      var id := job.value;
      if Blocked(work, id) {
        signal := ResetBlockedClaim(id, env.reset);
        return;
      }
      metadata := Some(Metadata(id, None));
      var payload := work.jobs[id].payload;
      if !ValidPayload(payload) {
        signal := PersistUnknown(id, None, FinalizationUnknown, false, env.mark);
        return;
      }
      metadata := Some(Metadata(id, Some(payload.identity)));
      signal := ProjectJob(id, payload.identity, env);
    }

    /** `mihomo_projection_write` after the body: open the release blocker, release the lock, and
        only then resolve the blocker. */
    method LeaveLock(body: Signal, r: Release) returns (signal: Signal)
      modifies this
      ensures (State(), signal) == Unlock(Stage(old(State()), body, old(metadata), old(unknown), Settled), r)
    {
      if body.Crashed? {
        return Crashed;
      }
      if metadata.None? {
        return if r.unlocked then body else Raised;
      }
      Rollback();
      var id := metadata.value.source;
      var key := BlockerKey(LockRelease, id);
      var origin := if metadata.value.identity.None? then Origin(None, None, ReleasePending)
        else Origin(Some(metadata.value.identity.value.operationId), Some(metadata.value.identity.value.revision), ReleasePending);
      var refused := r.ensureRaises;
      if !refused {
        refused := EnsureBlocker(key, origin);
      }
      if refused {
        Rollback();
        return Raised;
      }
      if unknown {
        work := work.(blockers := work.blockers[key := work.blockers[key].(note := Some(DurableStateUnknown))]);
      }
      Commit(r.commit);
      if !r.commit.Acked? {
        return Signalled(r.commit, None);
      }
      if !r.unlocked {
        Rollback();
        work := work.(blockers := work.blockers[key := work.blockers[key].(note := Some(ReleaseUnknown))]);
        Commit(r.note);
        return if r.note.Crashes() then Crashed else Raised;
      }
      if unknown {
        return body;
      }
      Rollback();
      work := work.(blockers := work.blockers[key := work.blockers[key].(status := Succeeded, note := None)]);
      Commit(r.resolve);
      signal := if r.resolve.Acked? then body else Signalled(r.resolve, None);
    }

    /** `reconcile_mihomo_job`: exactly the run of the model, in place. */
    method ReconcileJob(env: Env) returns (signal: Signal)
      requires work == durable && metadata.None? && !unknown
      modifies this, provider
      ensures (State(), signal) == Reconcile(old(State()), env)
      ensures work == durable && metadata.None? && !unknown
    {
      var body := ReconcileUnderLock(env);
      signal := LeaveLock(body, env.release);
      work, metadata, unknown := durable, None, false;
    }
  }
}
