/** What every run of the Mihomo queue keeps, whatever the environment answers. */
module MihomoInvariants {
  import opened Durable
  import opened MihomoQueue
  import opened MihomoRun
  import opened Wrappers
  import Forwarder = MihomoForwarder

  /** Evidence is written with success and never otherwise; a diagnostic freezes a running row. */
  predicate JobOk(j: Job) {
    && j.attempts <= j.maxAttempts
    && (EvidenceOf(j.payload).Some? <==> j.status.Succeeded?)
    && (j.status.Succeeded? ==> ValidPayload(j.payload) && j.payload.evidence.value.identity == j.payload.identity)
    && (IsUnknown(j.error) ==> j.status.Running?)
  }

  predicate AllBelowSucceeded(jobs: map<JobId, Job>, id: JobId) {
    forall i | i in jobs && i < id :: jobs[i].status.Succeeded?
  }

  function ReleaseOrigin(p: Payload): Origin {
    if ValidPayload(p) then Origin(Some(p.identity.operationId), Some(p.identity.revision), ReleasePending)
    else Origin(None, None, ReleasePending)
  }

  ghost predicate JobsInv(jobs: map<JobId, Job>, nextId: JobId) {
    && (forall id | id in jobs :: id < nextId && JobOk(jobs[id]))
    && (forall id | id in jobs && IsUnknown(jobs[id].error) :: AllBelowSucceeded(jobs, id))
  }

  /** Every finalized job has a release blocker, and release blockers carry their job's identity. */
  ghost predicate BlockersInv(db: Db) {
    && (forall id | id in db.jobs && db.jobs[id].status.Succeeded? :: BlockerKey(LockRelease, id) in db.blockers)
    && (forall k | k in db.blockers && k.kind.LockRelease? ::
          k.source in db.jobs && db.blockers[k].origin == ReleaseOrigin(db.jobs[k.source].payload))
  }

  ghost predicate Inv(db: Db) {
    JobsInv(db.jobs, db.nextId) && BlockersInv(db)
  }

  ghost predicate LogOk(w: World) {
    && (forall k | 0 <= k < |w.applied| :: w.applied[k] in w.db.jobs && AllBelowSucceeded(w.db.jobs, w.applied[k]))
    && (forall k, l | 0 <= k < l < |w.applied| :: w.applied[k] <= w.applied[l])
    && (forall id | id in w.db.jobs :: multiset(w.applied)[id] <= w.db.jobs[id].attempts)
  }

  ghost predicate WorldInv(w: World) {
    Inv(w.db) && LogOk(w)
  }

  predicate SameIntent(p: Payload, q: Payload) {
    p == q || (p.Intent? && q.Intent? && p.identity == q.identity)
  }

  /** The part of a run after the claim touches one row and the two blockers of that row; success
      is final and attempts are no longer counted. */
  ghost predicate Frame(db: Db, db': Db, id: JobId) {
    && db'.nextId == db.nextId
    && db'.jobs.Keys == db.jobs.Keys
    && id in db.jobs
    && (forall j | j in db.jobs && j != id :: db'.jobs[j] == db.jobs[j])
    && db'.jobs[id].attempts == db.jobs[id].attempts
    && db'.jobs[id].maxAttempts == db.jobs[id].maxAttempts
    && SameIntent(db.jobs[id].payload, db'.jobs[id].payload)
    && (db.jobs[id].status.Succeeded? ==> db'.jobs[id] == db.jobs[id])
    && (forall k | k in db.blockers && k.source != id :: k in db'.blockers && db'.blockers[k] == db.blockers[k])
    && (forall k | k in db'.blockers && k.source != id :: k in db.blockers)
  }

  /** A claimed row whose turn it is. */
  ghost predicate Mine(db: Db, id: JobId) {
    Inv(db) && id in db.jobs && AllBelowSucceeded(db.jobs, id)
  }

  predicate Open(db: Db, id: JobId) {
    id in db.jobs && db.jobs[id].status.Running? && !IsUnknown(db.jobs[id].error)
  }

  // -------------------------------------------------- single transactions

  lemma FrameTrans(a: Db, b: Db, c: Db, id: JobId)
    requires Frame(a, b, id) && Frame(b, c, id)
    ensures Frame(a, c, id)
  {
  }

  /** Rewriting one unfinished row without evidence keeps the invariant. */
  lemma RowKeeps(db: Db, id: JobId, j: Job)
    requires Mine(db, id)
    requires !db.jobs[id].status.Succeeded? && !j.status.Succeeded?
    requires j.payload == db.jobs[id].payload && JobOk(j)
    ensures Mine(db.(jobs := db.jobs[id := j]), id)
  {
  }

  lemma FailKeeps(w: World, id: JobId, code: Code, now: int, c: Commit)
    requires Mine(w.db, id) && !w.db.jobs[id].status.Succeeded? && code.Other?
    ensures var r := Fail(w, id, code, now, c);
            && Mine(r.0.db, id) && Frame(w.db, r.0.db, id) && !r.0.db.jobs[id].status.Succeeded?
            && r.0.runtime == w.runtime && r.0.applied == w.applied
  {
    RowKeeps(w.db, id, FailedRow(w.db, id, code, now).jobs[id]);
  }

  lemma FailGuardedKeeps(w: World, id: JobId, code: Code, env: Env)
    requires Mine(w.db, id) && !w.db.jobs[id].status.Succeeded? && code.Other?
    ensures var r := FailGuarded(w, id, code, env);
            && Mine(r.0.db, id) && Frame(w.db, r.0.db, id) && !r.0.db.jobs[id].status.Succeeded?
            && r.0.runtime == w.runtime && r.0.applied == w.applied
  {
    FailKeeps(w, id, code, env.later, env.failure);
    var first := Fail(w, id, code, env.later, env.failure);
    if first.1.Raised? {
      FailKeeps(first.0, id, RUNTIME_FAILURE, env.later, env.failureAgain);
      FrameTrans(w.db, first.0.db, Fail(first.0, id, RUNTIME_FAILURE, env.later, env.failureAgain).0.db, id);
    }
  }

  lemma OpenFinalizationKeeps(db: Db, id: JobId, identity: Option<Identity>, diagnostic: Code)
    requires Mine(db, id)
    ensures var o := OpenFinalization(db, id, identity, diagnostic);
            o.Some? ==> Mine(o.value, id) && Frame(db, o.value, id) && o.value.jobs == db.jobs
  {
  }

  lemma OpenReleaseKeeps(db: Db, id: JobId, identity: Option<Identity>)
    requires Mine(db, id)
    requires identity == (if ValidPayload(db.jobs[id].payload) then Some(db.jobs[id].payload.identity) else None)
    ensures var o := OpenRelease(db, id, identity);
            && o.Some? && Mine(o.value, id) && Frame(db, o.value, id) && o.value.jobs == db.jobs
            && o.value.blockers.Keys == db.blockers.Keys + {BlockerKey(LockRelease, id)}
            && !o.value.blockers[BlockerKey(LockRelease, id)].status.Succeeded?
  {
  }

  lemma SucceededRowKeeps(db: Db, id: JobId, e: Evidence)
    requires Mine(db, id) && Open(db, id)
    requires ValidPayload(db.jobs[id].payload) && db.jobs[id].payload.identity == e.identity
    ensures var row := SucceededRow(db, id, e);
            JobsInv(row.jobs, row.nextId) && AllBelowSucceeded(row.jobs, id) && Frame(db, row, id)
  {
  }

  /** Success appears with evidence and an open release blocker, or not at all. */
  lemma FinalizedKeeps(db: Db, id: JobId, e: Evidence)
    requires Mine(db, id) && Open(db, id)
    requires ValidPayload(db.jobs[id].payload) && db.jobs[id].payload.identity == e.identity
    requires ValidEvidenceVersion(e.verification)
    ensures var o := FinalizedDb(db, id, e);
            && o.Some? && Mine(o.value, id) && Frame(db, o.value, id)
            && ExactSuccess(o.value, id, e.identity, e.fingerprint)
  {
    hide JobsInv, OpenRelease, BlockersInv, Frame;
    SucceededRowKeeps(db, id, e);
    FinalizedOpens(db, id, e);
    var row := SucceededRow(db, id, e);
    FrameTrans(db, row, OpenRelease(row, id, Some(e.identity)).value, id);
  }

  /** The release blocker of a finalized row can always be opened, and guards exactly that row. */
  lemma FinalizedOpens(db: Db, id: JobId, e: Evidence)
    requires BlockersInv(db) && id in db.jobs
    requires ValidPayload(db.jobs[id].payload) && db.jobs[id].payload.identity == e.identity
    ensures var row := SucceededRow(db, id, e);
            var o := OpenRelease(row, id, Some(e.identity));
            && o.Some? && o.value.jobs == row.jobs && o.value.nextId == row.nextId
            && Frame(row, o.value, id) && BlockersInv(o.value) && ExactOpenRelease(o.value, id, e.identity)
  {
  }

  // ---------------------------------------------------------- whole stages

  lemma PersistKeeps(w: World, proposed: Db, id: JobId, identity: Option<Identity>, d: Code, applied: bool, m: Mark)
    requires Mine(w.db, id) && Mine(proposed, id) && Frame(w.db, proposed, id)
    ensures var s := PersistUnknownBlocker(w, proposed, id, identity, d, applied, m);
            && Mine(s.world.db, id) && Frame(w.db, s.world.db, id)
            && s.world.runtime == w.runtime && s.world.applied == w.applied
            && s.metadata == Some(Metadata(id, identity))
  {
    hide JobsInv, BlockersInv, MihomoQueue.OpenFinalization;
    OpenFinalizationKeeps(proposed, id, identity, d);
    var o := OpenFinalization(proposed, id, identity, d);
    if o.Some? {
      FrameTrans(w.db, proposed, o.value, id);
    }
  }

  lemma MarkedKeeps(db: Db, id: JobId, d: Code, now: int)
    requires Mine(db, id) && Open(db, id)
    ensures Mine(MarkedRow(db, id, d, now), id) && Frame(db, MarkedRow(db, id, d, now), id)
  {
  }

  lemma MarkUnknownKeeps(
    w: World, id: JobId, i: Identity, fingerprint: string, d: Code, persist: bool, now: int, m: Mark
  )
    requires Mine(w.db, id)
    ensures var s := MarkUnknown(w, id, i, fingerprint, d, persist, now, m);
            && Mine(s.world.db, id) && Frame(w.db, s.world.db, id)
            && s.world.runtime == w.runtime && s.world.applied == w.applied
            && s.metadata == Some(Metadata(id, Some(i)))
  {
    hide PersistUnknownBlocker, JobsInv, BlockersInv;
    if ExactClaim(w.db, id, i) {
      MarkedKeeps(w.db, id, d, now);
      PersistKeeps(w, MarkedRow(w.db, id, d, now), id, Some(i), d, true, m);
    }
    PersistKeeps(w, w.db, id, Some(i), d, true, m);
  }

  /** Exact classification. With a working observer, the outcome of a finalization whose commit
      raised is LANDED exactly when that transaction landed and ABSENT exactly when it did not. */
  lemma ClassificationIsExact(w: World, id: JobId, e: Evidence, env: Env)
    requires Mine(w.db, id) && Open(w.db, id)
    requires ValidPayload(w.db.jobs[id].payload) && w.db.jobs[id].payload.identity == e.identity
    requires ValidEvidenceVersion(e.verification)
    ensures var proposed := FinalizedDb(w.db, id, e);
            && proposed.Some?
            && var db' := After(w.db, proposed.value, env.finalize);
               && (Classify(db', id, e.identity, e.fingerprint, true).LANDED? <==> env.finalize.Lands())
               && (Classify(db', id, e.identity, e.fingerprint, true).ABSENT? <==> !env.finalize.Lands())
               && Classify(w.db, id, e.identity, e.fingerprint, true).ABSENT?
  {
  }

  lemma FinalizeKeeps(w: World, id: JobId, e: Evidence, env: Env)
    requires Mine(w.db, id) && Open(w.db, id)
    requires ValidPayload(w.db.jobs[id].payload) && w.db.jobs[id].payload.identity == e.identity
    requires ValidEvidenceVersion(e.verification)
    ensures var s := Finalize(w, id, e, env);
            && Mine(s.world.db, id) && Frame(w.db, s.world.db, id)
            && s.world.runtime == w.runtime && s.world.applied == w.applied
            && s.metadata == Some(Metadata(id, Some(e.identity)))
  {
    FinalizedKeeps(w.db, id, e);
    ClassificationIsExact(w, id, e, env);
    var attempted := !env.ensureRaises;
    var proposed := FinalizedDb(w.db, id, e).value;
    var w' := if attempted then w.(db := After(w.db, proposed, env.finalize)) else w;
    assert Mine(w'.db, id) && Frame(w.db, w'.db, id);
    if !(attempted && (env.finalize.Acked? || env.finalize.Crashes())) {
      match Classify(w'.db, id, e.identity, e.fingerprint, env.observerWorks) {
        case LANDED =>
        case ABSENT =>
          FailGuardedKeeps(w', id, RUNTIME_FAILURE, env);
          FrameTrans(w.db, w'.db, FailGuarded(w', id, RUNTIME_FAILURE, env).0.db, id);
        case UNKNOWN =>
          MarkUnknownKeeps(w', id, e.identity, e.fingerprint, FinalizationUnknown, false, env.later, env.mark);
          FrameTrans(w.db, w'.db, MarkUnknown(w', id, e.identity, e.fingerprint, FinalizationUnknown, false, env.later, env.mark).world.db, id);
      }
    }
  }

  lemma ProjectedKeeps(w: World, id: JobId, i: Identity, c: Forwarder.Candidate, o: Forwarder.Outcome, env: Env)
    requires Mine(w.db, id) && Open(w.db, id)
    requires ValidPayload(w.db.jobs[id].payload) && w.db.jobs[id].payload.identity == i
    ensures var s := Projected(w, id, i, c, o, env);
            && Mine(s.world.db, id) && Frame(w.db, s.world.db, id)
            && s.world.runtime == w.runtime && s.world.applied == w.applied
            && s.metadata == Some(Metadata(id, Some(i)))
  {
    match o {
      case Died =>
      case RollbackUnknown =>
        MarkUnknownKeeps(w, id, i, c.version, Code.RollbackUnknown, false, env.later, env.mark);
      case RollbackVerified =>
        FailGuardedKeeps(w, id, ROLLBACK_VERIFIED, env);
      case Refused =>
        FailKeeps(w, id, RUNTIME_FAILURE, env.later, env.failure);
      case Unconfirmed =>
        MarkUnknownKeeps(w, id, i, c.version, RuntimeUnknown, true, env.later, env.mark);
      case Applied =>
        if env.verdict.VerifierRaises? || !env.verdict.verified || !ValidEvidenceVersion(env.verdict.evidenceVersion) {
          MarkUnknownKeeps(w, id, i, c.version, RuntimeUnknown, false, env.later, env.mark);
        } else {
          FinalizeKeeps(w, id, Evidence(i, c.version, env.verdict.evidenceVersion), env);
        }
    }
  }

  lemma ProjectKeeps(w: World, id: JobId, i: Identity, env: Env)
    requires Mine(w.db, id) && Open(w.db, id)
    requires ValidPayload(w.db.jobs[id].payload) && w.db.jobs[id].payload.identity == i
    ensures var s := Project(w, id, i, env);
            && Mine(s.world.db, id) && Frame(w.db, s.world.db, id)
            && (s.world.applied == w.applied || s.world.applied == w.applied + [id])
            && s.metadata == Some(Metadata(id, Some(i)))
  {
    if env.prepare.PrepareRaises? {
      FailKeeps(w, id, Other(env.prepare.text), env.later, env.failure);
    } else if env.prepare.revision != i.revision {
      FailKeeps(w, id, STALE_SNAPSHOT, env.later, env.failure);
    } else {
      var p := Forwarder.Apply(w.runtime, env.prepare.candidate, env.script);
      ProjectedKeeps(World(w.db, p.runtime, w.applied + [id]), id, i, env.prepare.candidate, p.outcome, env);
    }
  }

  /** Rewriting the state of a blocker, not its origin, keeps the invariant. */
  lemma BlockerKeeps(db: Db, key: BlockerKey, b: Blocker)
    requires Inv(db) && key in db.blockers && b.origin == db.blockers[key].origin
    ensures Inv(db.(blockers := db.blockers[key := b]))
  {
  }

  ghost predicate MetadataOk(s: Stage) {
    s.metadata.Some? ==>
      && Mine(s.world.db, s.metadata.value.source)
      && var p := s.world.db.jobs[s.metadata.value.source].payload;
         s.metadata.value.identity == (if ValidPayload(p) then Some(p.identity) else None)
  }

  lemma UnlockKeeps(s: Stage, r: Release)
    requires Inv(s.world.db) && MetadataOk(s)
    ensures var u := Unlock(s, r).0;
            && Inv(u.db) && u.db.jobs == s.world.db.jobs && u.db.nextId == s.world.db.nextId
            && u.runtime == s.world.runtime && u.applied == s.world.applied
  {
    hide JobsInv, BlockersInv, MihomoQueue.EnsureBlocker;
    if s.metadata.Some? {
      var id := s.metadata.value.source;
      var key := BlockerKey(LockRelease, id);
      OpenReleaseKeeps(s.world.db, id, s.metadata.value.identity);
      var g := OpenRelease(s.world.db, id, s.metadata.value.identity).value;
      BlockerKeeps(g, key, g.blockers[key].(note := Some(DurableStateUnknown)));
      var proposed := if s.unknown then Annotated(g, key, DurableStateUnknown) else g;
      if r.commit.Acked? {
        BlockerKeeps(proposed, key, proposed.blockers[key].(note := Some(ReleaseUnknown)));
        BlockerKeeps(proposed, key, proposed.blockers[key].(status := Succeeded, note := None));
      }
    }
  }
}
