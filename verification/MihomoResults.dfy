/** What the result of a Mihomo run says about its row, and how often a job is applied at all. */
module MihomoResults {
  import opened Durable
  import opened Limits
  import opened MihomoHistories
  import opened MihomoInvariants
  import opened MihomoQueue
  import opened MihomoRun
  import opened MihomoTheorems
  import opened Wrappers
  import Forwarder = MihomoForwarder

  // -------------------------------------------------------------- results

  /** Finalized says that the row has succeeded, retryable that it has failed with attempts left, and a
      row that is neither carries an outcome nobody knows. */
  predicate Tells(r: MihomoRun.Result, db: Db) {
    && r.id in db.jobs
    && var j := db.jobs[r.id];
    && (r.finalized <==> j.status.Succeeded?)
    && (r.retryable <==> j.status.Failed? && j.attempts < j.maxAttempts)
    && (j.status.Failed? ==> !r.applied && r.reason.Some? && r.reason == j.error)
    && (j.status.Succeeded? ==> r.applied && r.reason.None?)
    && (!j.status.Failed? && !j.status.Succeeded? ==> j.status.Running? && IsUnknown(r.reason) && (r.applied <==> ValidPayload(j.payload)))
  }

  /** A stage that returns, returns a true result about the row. */
  ghost predicate Honestly(s: Stage, id: JobId) {
    s.signal.Returned? ==> s.signal.result.Some? && s.signal.result.value.id == id && Tells(s.signal.result.value, s.world.db)
  }

  lemma FailTells(w: World, id: JobId, code: Code, now: int, c: Commit)
    requires id in w.db.jobs
    ensures var (w', s) := Fail(w, id, code, now, c);
            s.Returned? ==> s.result.Some? && s.result.value.id == id && Tells(s.result.value, w'.db)
  {
  }

  lemma FailGuardedTells(w: World, id: JobId, code: Code, env: Env)
    requires id in w.db.jobs
    ensures var (w', s) := FailGuarded(w, id, code, env);
            s.Returned? ==> s.result.Some? && s.result.value.id == id && Tells(s.result.value, w'.db)
  {
    hide Tells;
    FailTells(w, id, code, env.later, env.failure);
    var first := Fail(w, id, code, env.later, env.failure);
    FailTells(first.0, id, RUNTIME_FAILURE, env.later, env.failureAgain);
  }

  /** A failure inside the guarded block is written twice if it has to be: the row is FAILED exactly when
      one of the two commits lands, the second one counts, and the run returns exactly when the last
      commit it tried was acknowledged. */
  lemma FailureIsRecorded(w: World, id: JobId, code: Code, env: Env)
    requires id in w.db.jobs && w.db.jobs[id].status.Running?
    ensures var (w', s) := FailGuarded(w, id, code, env);
            var again := env.failure.Raises() && env.failureAgain.Lands();
            && id in w'.db.jobs
            && (w'.db.jobs[id].status.Failed? <==> env.failure.Lands() || again)
            && (w'.db.jobs[id].status.Failed? ==> w'.db.jobs[id].error == Some(if again then RUNTIME_FAILURE else code))
            && (s.Returned? <==> env.failure.Acked? || (env.failure.Raises() && env.failureAgain.Acked?))
            && (s.Raised? <==> env.failure.Raises() && env.failureAgain.Raises())
  {
    hide BackoffMinutes;
  }

  lemma PersistTells(w: World, proposed: Db, id: JobId, identity: Option<Identity>, d: Code, applied: bool, m: Mark)
    requires id in proposed.jobs && proposed.jobs[id].status.Running? && !d.Other?
    requires applied <==> ValidPayload(proposed.jobs[id].payload)
    ensures Honestly(PersistUnknownBlocker(w, proposed, id, identity, d, applied, m), id)
  {
  }

  lemma MarkUnknownTells(
    w: World, id: JobId, i: Identity, fingerprint: string, d: Code, persist: bool, now: int, m: Mark
  )
    requires id in w.db.jobs && !d.Other? && ValidPayload(w.db.jobs[id].payload)
    requires w.db.jobs[id].status.Running? || ExactSuccess(w.db, id, i, fingerprint)
    ensures Honestly(MarkUnknown(w, id, i, fingerprint, d, persist, now, m), id)
  {
    hide ExactOpenRelease, PersistUnknownBlocker;
    if w.db.jobs[id].status.Running? {
      PersistTells(w, w.db, id, Some(i), d, true, m);
      PersistTells(w, MarkedRow(w.db, id, d, now), id, Some(i), d, true, m);
    }
  }

  lemma FinalizeTells(w: World, id: JobId, e: Evidence, env: Env)
    requires Mine(w.db, id) && Open(w.db, id)
    requires ValidPayload(w.db.jobs[id].payload) && w.db.jobs[id].payload.identity == e.identity
    requires ValidEvidenceVersion(e.verification)
    ensures Honestly(Finalize(w, id, e, env), id)
  {
    hide MarkUnknown, FailGuarded, FinalizedDb, Inv, ExactOpenRelease, ValidIdentity, ValidEvidenceVersion, Frame;
    FinalizedKeeps(w.db, id, e);
    ClassificationIsExact(w, id, e, env);
    var proposed := FinalizedDb(w.db, id, e);
    var attempted := !env.ensureRaises;
    var w' := if attempted then w.(db := After(w.db, proposed.value, env.finalize)) else w;
    FailGuardedTells(w', id, RUNTIME_FAILURE, env);
    MarkUnknownTells(w', id, e.identity, e.fingerprint, FinalizationUnknown, false, env.later, env.mark);
  }

  lemma ProjectedTells(w: World, id: JobId, i: Identity, c: Forwarder.Candidate, o: Forwarder.Outcome, env: Env)
    requires Mine(w.db, id) && Open(w.db, id)
    requires ValidPayload(w.db.jobs[id].payload) && w.db.jobs[id].payload.identity == i
    ensures Honestly(Projected(w, id, i, c, o, env), id)
  {
    hide MarkUnknown, Finalize, Fail, FailGuarded, Tells, Inv, AllBelowSucceeded;
    FailTells(w, id, RUNTIME_FAILURE, env.later, env.failure);
    FailGuardedTells(w, id, ROLLBACK_VERIFIED, env);
    MarkUnknownTells(w, id, i, c.version, Code.RollbackUnknown, false, env.later, env.mark);
    MarkUnknownTells(w, id, i, c.version, RuntimeUnknown, false, env.later, env.mark);
    MarkUnknownTells(w, id, i, c.version, RuntimeUnknown, true, env.later, env.mark);
    if Verified(env.verdict) {
      FinalizeTells(w, id, Evidence(i, c.version, env.verdict.evidenceVersion), env);
    }
  }

  lemma ProjectTells(w: World, id: JobId, i: Identity, env: Env)
    requires Mine(w.db, id) && Open(w.db, id)
    requires ValidPayload(w.db.jobs[id].payload) && w.db.jobs[id].payload.identity == i
    ensures Honestly(Project(w, id, i, env), id)
  {
    hide Projected, Fail, Tells, Inv, AllBelowSucceeded, Forwarder.Apply;
    if env.prepare.PrepareRaises? {
      FailTells(w, id, Other(env.prepare.text), env.later, env.failure);
    } else {
      FailTells(w, id, STALE_SNAPSHOT, env.later, env.failure);
      var p := Forwarder.Apply(w.runtime, env.prepare.candidate, env.script);
      ProjectedTells(World(w.db, p.runtime, w.applied + [id]), id, i, env.prepare.candidate, p.outcome, env);
    }
  }

  /** What a run returns. Nothing, when no row is claimable or the claimed one is blocked; otherwise a
      true result about the row it claimed. */
  lemma ResultTellsTheRow(w: World, env: Env)
    requires WorldInv(w)
    ensures var (w', s) := Reconcile(w, env);
            var first := FirstClaimable(w.db, env.now, 0);
            s.Returned? ==>
              && (s.result.None? <==> first.None? || Blocked(w.db, first.value))
              && (s.result.Some? ==> first == Some(s.result.value.id) && Tells(s.result.value, w'.db))
  {
    hide JobsInv, BlockersInv, LogOk, Tells, Body, Unlock;
    BodyKeeps(w, env);
    UnlockKeeps(Body(w, env), env.release);
    UnlockPasses(Body(w, env), env.release);
    BodyTells(w, env);
    var s := Body(w, env);
    if s.signal.Returned? && s.signal.result.Some? {
      SameRows(s.signal.result.value, s.world.db, Reconcile(w, env).0.db);
    }
  }

  lemma SameRows(r: MihomoRun.Result, db: Db, db': Db)
    requires db'.jobs == db.jobs
    ensures Tells(r, db') <==> Tells(r, db)
  {
  }

  /** Leaving the lock returns what the body returned, or nothing at all. */
  lemma UnlockPasses(s: Stage, r: Release)
    ensures Unlock(s, r).1.Returned? ==> Unlock(s, r).1 == s.signal
  {
  }

  lemma BodyTells(w: World, env: Env)
    requires WorldInv(w)
    ensures var s := Body(w, env);
            var first := FirstClaimable(w.db, env.now, 0);
            s.signal.Returned? ==>
              && (s.signal.result.None? <==> first.None? || Blocked(w.db, first.value))
              && (s.signal.result.Some? ==> first == Some(s.signal.result.value.id) && Tells(s.signal.result.value, s.world.db))
  {
    hide JobsInv, BlockersInv, LogOk, Tells, Project, PersistUnknownBlocker, Blocked;
    var first := FirstClaimable(w.db, env.now, 0);
    if first.Some? {
      var id := first.value;
      ClaimKeeps(w.db, id, env.now);
      var c := w.(db := Claimed(w.db, id, env.now));
      if env.claim.Acked? && !Blocked(c.db, id) {
        if ValidPayload(c.db.jobs[id].payload) {
          ProjectTells(c, id, c.db.jobs[id].payload.identity, env);
        } else {
          PersistTells(c, c.db, id, None, FinalizationUnknown, false, env.mark);
        }
      }
    }
  }

  // ------------------------------------------------------ after the result

  /** How a run leaves its lock. Without release metadata it only needs the lock to be released; with it,
      it returns exactly when the guard landed, the lock was released, and the guard was resolved unless
      the durable state is unknown. */
  lemma UnlockReturnsExactly(s: Stage, r: Release)
    requires Inv(s.world.db) && MetadataOk(s)
    ensures s.metadata.None? && !s.signal.Crashed? ==> Unlock(s, r) == (s.world, if r.unlocked then s.signal else Raised)
    ensures s.metadata.Some? ==>
              (Unlock(s, r).1.Returned? <==>
               && s.signal.Returned? && !r.ensureRaises && r.commit.Acked? && r.unlocked
               && (s.unknown || r.resolve.Acked?))
    ensures s.metadata.Some? && !s.signal.Crashed? ==>
              (Unlock(s, r).1.Crashed? <==>
               && !r.ensureRaises
               && (|| r.commit.Crashes() || (r.commit.Acked? && !r.unlocked && r.note.Crashes())
                   || (r.commit.Acked? && r.unlocked && !s.unknown && r.resolve.Crashes())))
  {
    hide JobsInv, BlockersInv;
    if s.metadata.Some? {
      OpenReleaseKeeps(s.world.db, s.metadata.value.source, s.metadata.value.identity);
    }
  }

  /** A stage that returns a known outcome knows its durable state and has opened no blocker but the
      release blocker of its job. */
  ghost predicate Known(s: Stage, db: Db, id: JobId) {
    s.signal.Returned? && id in s.world.db.jobs && !s.world.db.jobs[id].status.Running? ==>
      && !s.unknown
      && forall k | k in s.world.db.blockers && k != BlockerKey(LockRelease, id) ::
           k in db.blockers && s.world.db.blockers[k] == db.blockers[k]
  }

  lemma FailIsKnown(w: World, id: JobId, code: Code, env: Env, now: int, c: Commit)
    requires id in w.db.jobs
    ensures Fail(w, id, code, now, c).0.db.blockers == w.db.blockers
    ensures FailGuarded(w, id, code, env).0.db.blockers == w.db.blockers
  {
    hide BackoffMinutes;
  }

  lemma MarkUnknownIsKnown(
    w: World, id: JobId, i: Identity, fingerprint: string, d: Code, persist: bool, now: int, m: Mark
  )
    requires id in w.db.jobs && (w.db.jobs[id].status.Running? || ExactSuccess(w.db, id, i, fingerprint))
    ensures Known(MarkUnknown(w, id, i, fingerprint, d, persist, now, m), w.db, id)
  {
    hide ExactOpenRelease, OpenFinalization;
    OpensKeepRows(w.db, id, Some(i), d);
    OpensKeepRows(MarkedRow(w.db, id, d, now), id, Some(i), d);
  }

  lemma OpensKeepRows(db: Db, id: JobId, identity: Option<Identity>, d: Code)
    ensures OpenFinalization(db, id, identity, d).Some? ==> OpenFinalization(db, id, identity, d).value.jobs == db.jobs
  {
  }

  lemma FinalizeIsKnown(w: World, id: JobId, e: Evidence, env: Env)
    requires Mine(w.db, id) && Open(w.db, id)
    requires ValidPayload(w.db.jobs[id].payload) && w.db.jobs[id].payload.identity == e.identity
    requires ValidEvidenceVersion(e.verification)
    ensures Known(Finalize(w, id, e, env), w.db, id)
  {
    hide MarkUnknown, FailGuarded, Inv, ExactOpenRelease, ValidPayload, ValidEvidenceVersion, Frame, Known, FinalizedDb;
    FinalizedKeeps(w.db, id, e);
    FinalizedOpensRelease(w.db, id, e);
    ClassificationIsExact(w, id, e, env);
    var proposed := FinalizedDb(w.db, id, e).value;
    var attempted := !env.ensureRaises;
    var w' := if attempted then w.(db := After(w.db, proposed, env.finalize)) else w;
    FailIsKnown(w', id, RUNTIME_FAILURE, env, env.later, env.failure);
    MarkUnknownIsKnown(w', id, e.identity, e.fingerprint, FinalizationUnknown, false, env.later, env.mark);
    KnownFrom(MarkUnknown(w', id, e.identity, e.fingerprint, FinalizationUnknown, false, env.later, env.mark), w'.db, w.db, id);
    KnownWorld(Finalize(w, id, e, env), w'.db, w.db, id);
  }

  lemma FinalizedOpensRelease(db: Db, id: JobId, e: Evidence)
    requires id in db.jobs
    ensures var o := FinalizedDb(db, id, e);
            o.Some? ==> forall k | k in o.value.blockers && k != BlockerKey(LockRelease, id) ::
                          k in db.blockers && o.value.blockers[k] == db.blockers[k]
  {
  }

  lemma KnownFrom(s: Stage, db': Db, db: Db, id: JobId)
    requires Known(s, db', id)
    requires forall k | k in db'.blockers && k != BlockerKey(LockRelease, id) :: k in db.blockers && db'.blockers[k] == db.blockers[k]
    ensures Known(s, db, id)
  {
  }

  lemma KnownWorld(s: Stage, db': Db, db: Db, id: JobId)
    requires forall k | k in db'.blockers && k != BlockerKey(LockRelease, id) :: k in db.blockers && db'.blockers[k] == db.blockers[k]
    ensures !s.unknown && s.world.db.blockers == db'.blockers ==> Known(s, db, id)
  {
  }

  lemma ProjectedIsKnown(w: World, id: JobId, i: Identity, c: Forwarder.Candidate, o: Forwarder.Outcome, env: Env)
    requires Mine(w.db, id) && Open(w.db, id)
    requires ValidPayload(w.db.jobs[id].payload) && w.db.jobs[id].payload.identity == i
    ensures Known(Projected(w, id, i, c, o, env), w.db, id)
  {
    hide MarkUnknown, Finalize, Fail, FailGuarded, Inv, AllBelowSucceeded;
    FailIsKnown(w, id, RUNTIME_FAILURE, env, env.later, env.failure);
    FailIsKnown(w, id, ROLLBACK_VERIFIED, env, env.later, env.failure);
    MarkUnknownIsKnown(w, id, i, c.version, Code.RollbackUnknown, false, env.later, env.mark);
    MarkUnknownIsKnown(w, id, i, c.version, RuntimeUnknown, false, env.later, env.mark);
    MarkUnknownIsKnown(w, id, i, c.version, RuntimeUnknown, true, env.later, env.mark);
    if Verified(env.verdict) {
      FinalizeIsKnown(w, id, Evidence(i, c.version, env.verdict.evidenceVersion), env);
    }
  }

  lemma ProjectIsKnown(w: World, id: JobId, i: Identity, env: Env)
    requires Mine(w.db, id) && Open(w.db, id)
    requires ValidPayload(w.db.jobs[id].payload) && w.db.jobs[id].payload.identity == i
    ensures Known(Project(w, id, i, env), w.db, id)
  {
    hide Projected, Fail, Inv, AllBelowSucceeded, Forwarder.Apply;
    if env.prepare.PrepareRaises? {
      FailIsKnown(w, id, Other(env.prepare.text), env, env.later, env.failure);
    } else {
      FailIsKnown(w, id, STALE_SNAPSHOT, env, env.later, env.failure);
      var p := Forwarder.Apply(w.runtime, env.prepare.candidate, env.script);
      ProjectedIsKnown(World(w.db, p.runtime, w.applied + [id]), id, i, env.prepare.candidate, p.outcome, env);
    }
  }

  lemma PersistIsRunning(w: World, id: JobId, d: Code, applied: bool, m: Mark)
    requires id in w.db.jobs && w.db.jobs[id].status.Running?
    ensures var s := PersistUnknownBlocker(w, w.db, id, None, d, applied, m);
            id in s.world.db.jobs && s.world.db.jobs[id].status.Running?
  {
    hide OpenFinalization;
    OpensKeepRows(w.db, id, None, d);
  }

  /** A run that returns a retryable or finalized result leaves no blocker open: the retry, or the next
      job, is not held up by it. */
  lemma ReturnedIsReleased(w: World, env: Env)
    requires WorldInv(w)
    ensures var (w', s) := Reconcile(w, env);
            (s.Returned? && s.result.Some? && (s.result.value.retryable || s.result.value.finalized)) ==>
              !UnresolvedBlocker(w'.db)
  {
    hide JobsInv, BlockersInv, LogOk, Body, Unlock, Tells;
    BodyKeeps(w, env);
    UnlockPasses(Body(w, env), env.release);
    BodyTells(w, env);
    BodyIsKnown(w, env);
    var s := Body(w, env);
    var (w', signal) := Reconcile(w, env);
    if signal.Returned? && signal.result.Some? && (signal.result.value.retryable || signal.result.value.finalized) {
      KnownIsNotRunning(signal.result.value, s.world.db);
      ResolvedOnExit(s, env.release);
      forall k | k in w'.db.blockers
        ensures w'.db.blockers[k].status.Succeeded?
      {
        if k != BlockerKey(LockRelease, s.metadata.value.source) {
          assert k in w.db.blockers && w'.db.blockers[k] == w.db.blockers[k];
        }
      }
    }
  }

  lemma KnownIsNotRunning(r: MihomoRun.Result, db: Db)
    requires Tells(r, db) && (r.retryable || r.finalized)
    ensures r.id in db.jobs && !db.jobs[r.id].status.Running?
  {
  }

  lemma ResolvedOnExit(s: Stage, r: Release)
    requires Inv(s.world.db) && MetadataOk(s) && s.metadata.Some? && Unlock(s, r).1.Returned?
    ensures var key := BlockerKey(LockRelease, s.metadata.value.source);
            var db' := Unlock(s, r).0.db;
            && (forall k | k in db'.blockers && k != key :: k in s.world.db.blockers && db'.blockers[k] == s.world.db.blockers[k])
            && (!s.unknown ==> key in db'.blockers && db'.blockers[key].status.Succeeded?)
  {
    hide JobsInv, BlockersInv;
    OpenReleaseKeeps(s.world.db, s.metadata.value.source, s.metadata.value.identity);
  }

  /** The body of a run that returns a result: whose row it is, and that nothing but that row's release
      blocker can be open once its outcome is known. */
  lemma BodyIsKnown(w: World, env: Env)
    requires WorldInv(w)
    ensures var s := Body(w, env);
            s.signal.Returned? && s.signal.result.Some? ==>
              && s.metadata.Some? && s.metadata.value.source == s.signal.result.value.id
              && !UnresolvedBlocker(w.db) && Known(s, w.db, s.signal.result.value.id)
  {
    hide JobsInv, BlockersInv, LogOk, Project, PersistUnknownBlocker, Known, Tells;
    BodyTells(w, env);
    var first := FirstClaimable(w.db, env.now, 0);
    if first.Some? {
      var id := first.value;
      ClaimKeeps(w.db, id, env.now);
      var c := w.(db := Claimed(w.db, id, env.now));
      if env.claim.Acked? && !Blocked(c.db, id) {
        UnblockedBodyKeeps(w, env, id);
        if ValidPayload(c.db.jobs[id].payload) {
          ProjectIsKnown(c, id, c.db.jobs[id].payload.identity, env);
        } else {
          PersistIsRunning(c, id, FinalizationUnknown, false, env.mark);
          RunningIsKnown(PersistUnknownBlocker(c, c.db, id, None, FinalizationUnknown, false, env.mark), c.db, id);
        }
        SameBlockersKnown(Body(w, env), c.db, w.db, id);
      }
    }
  }

  lemma RunningIsKnown(s: Stage, db: Db, id: JobId)
    requires id in s.world.db.jobs && s.world.db.jobs[id].status.Running?
    ensures Known(s, db, id)
  {
  }

  lemma SameBlockersKnown(s: Stage, c: Db, db: Db, id: JobId)
    requires Known(s, c, id) && c.blockers == db.blockers
    ensures Known(s, db, id)
  {
  }

  /** What the classifier may conclude, on the rows alone: success, its evidence and its open blocker
      together; or a claim that is running without evidence and without a diagnostic; or nothing. */
  lemma ClassifierReadsTheRows(db: Db, id: JobId, i: Identity, fingerprint: string, works: bool)
    ensures var o := Classify(db, id, i, fingerprint, works);
            var key := BlockerKey(LockRelease, id);
            && (o.LANDED? <==>
                  && works && id in db.jobs && db.jobs[id].status == Succeeded
                  && db.jobs[id].payload.Intent? && db.jobs[id].payload.identity == i
                  && db.jobs[id].payload.evidence.Some?
                  && db.jobs[id].payload.evidence.value.identity == i
                  && db.jobs[id].payload.evidence.value.fingerprint == fingerprint
                  && IsSafe(db.jobs[id].payload.evidence.value.verification, 64)
                  && key in db.blockers && db.blockers[key].status != Succeeded
                  && db.blockers[key].origin == Origin(Some(i.operationId), Some(i.revision), ReleasePending))
            && (o.ABSENT? <==>
                  && works && id in db.jobs && db.jobs[id].status == Running
                  && db.jobs[id].payload == Intent(i, None)
                  && (db.jobs[id].error.None? || db.jobs[id].error.value.Other?))
  {
  }

  // ------------------------------------------------------------- attempts

  ghost predicate FiveAtMost(db: Db) {
    forall id | id in db.jobs :: db.jobs[id].maxAttempts == 5
  }

  lemma StepKeepsFive(w: World, s: Step)
    requires WorldInv(w) && FiveAtMost(w.db)
    ensures WorldInv(Next(w, s)) && FiveAtMost(Next(w, s).db)
  {
    hide WorldInv, Reconcile;
    match s {
      case Enqueue(i, now, commit) => EnqueueKeeps(w, i, now, commit);
      case Work(env) =>
        RunKeeps(w, env);
        RunAddsNothing(w, env);
    }
  }

  lemma {:induction false} FiveAttempts(w: World, steps: seq<Step>)
    requires WorldInv(w) && FiveAtMost(w.db)
    ensures WorldInv(Exec(w, steps)) && FiveAtMost(Exec(w, steps).db)
    decreases |steps|
  {
    hide WorldInv, FiveAtMost, Next;
    if steps != [] {
      StepKeepsFive(w, steps[0]);
      FiveAttempts(Next(w, steps[0]), steps[1..]);
    }
  }

  /** From the empty queue, whatever happens, no job is handed to `apply` more than five times. */
  lemma AppliedAtMostFiveTimes(runtime: Forwarder.Runtime, steps: seq<Step>, id: JobId)
    ensures multiset(Exec(EmptyQueue(runtime), steps).applied)[id] <= 5
  {
    hide Exec, Inv, AllBelowSucceeded;
    EmptyQueueIsLegal(runtime);
    FiveAttempts(EmptyQueue(runtime), steps);
    InOrderBoundedFinal(EmptyQueue(runtime), steps);
    var w := Exec(EmptyQueue(runtime), steps);
    if id !in w.db.jobs {
      assert id !in w.applied;
    }
  }
}
