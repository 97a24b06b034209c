/** The promises of the Mihomo queue, over every run and every sequence of runs. */
module MihomoTheorems {
  import opened Durable
  import opened MihomoQueue
  import opened MihomoRun
  import opened MihomoInvariants
  import opened RuntimeCalls
  import opened Wrappers
  import Forwarder = MihomoForwarder

  // -------------------------------------------------------------- the claim

  lemma ClaimKeeps(db: Db, id: JobId, now: int)
    requires Inv(db) && id in db.jobs && Claimable(db.jobs[id], now)
    ensures var c := Claimed(db, id, now);
            && Inv(c) && Open(c, id)
            && (!Blocked(c, id) ==> Mine(c, id))
            && (Blocked(c, id) <==> Blocked(db, id))
            && Evolves(db, c)
            && (forall k | k in db.jobs :: db.jobs[k].attempts <= c.jobs[k].attempts)
            && c.jobs[id].attempts == db.jobs[id].attempts + 1
  {
    hide IsUnknown, ValidPayload;
    var c := Claimed(db, id, now);
    assert JobOk(db.jobs[id]);
    assert forall i | i in db.jobs && i < id :: c.jobs[i] == db.jobs[i];
    forall k | k in c.jobs && IsUnknown(c.jobs[k].error)
      ensures AllBelowSucceeded(c.jobs, k)
    {
      assert k != id;
      assert AllBelowSucceeded(db.jobs, k);
    }
  }

  lemma UnclaimKeeps(db: Db, id: JobId)
    requires Inv(db) && Open(db, id)
    ensures var u := Unclaimed(db, id);
            && Inv(u) && Evolves(db, u)
            && (forall k | k in db.jobs && k != id :: u.jobs[k] == db.jobs[k])
            && u.jobs[id].attempts + 1 >= db.jobs[id].attempts
  {
    var u := Unclaimed(db, id);
    forall k | k in u.jobs && IsUnknown(u.jobs[k].error)
      ensures AllBelowSucceeded(u.jobs, k)
    {
      assert AllBelowSucceeded(db.jobs, k);
    }
  }

  /** A blocked claim consumes no attempt exactly when its reset reaches the database. If it does, the
      run leaves everything as it found it, up to the row being PENDING and unlocked; if it does not,
      whether the reset raised or the process died, the row stays claimed and one attempt is gone. */
  lemma BlockedClaimConsumesNothing(w: World, env: Env)
    requires WorldInv(w) && FirstClaimable(w.db, env.now, 0).Some?
    requires env.claim.Acked? && Blocked(w.db, FirstClaimable(w.db, env.now, 0).value)
    ensures var id := FirstClaimable(w.db, env.now, 0).value;
            var w' := Reconcile(w, env).0;
            && id in w'.db.jobs && Body(w, env).metadata.None?
            && (w'.db.jobs[id].attempts == w.db.jobs[id].attempts <==> env.reset.Lands())
            && w'.db == (if env.reset.Lands() then Unlocked(w.db, id) else Claimed(w.db, id, env.now))
            && w' == w.(db := w'.db)
  {
    hide BlockersInv, LogOk;
    var id := FirstClaimable(w.db, env.now, 0).value;
    ClaimKeeps(w.db, id, env.now);
    UnclaimedIsUnlocked(w.db, id, env.now);
  }

  /** The row back in the queue with the attempts it had. */
  function Unlocked(db: Db, id: JobId): Db
    requires id in db.jobs
  {
    db.(jobs := db.jobs[id := db.jobs[id].(status := Pending, lockedAt := None)])
  }

  lemma UnclaimedIsUnlocked(db: Db, id: JobId, now: int)
    requires id in db.jobs
    ensures Unclaimed(Claimed(db, id, now), id) == Unlocked(db, id)
  {
  }

  // -------------------------------------------------------------- one run

  /** What a run may do to the rows: success is final, identities and limits are immutable. */
  ghost predicate Evolves(db: Db, db': Db) {
    && db.nextId <= db'.nextId
    && db.jobs.Keys <= db'.jobs.Keys
    && (forall id | id in db'.jobs && id !in db.jobs :: db.nextId <= id)
    && (forall id | id in db.jobs ::
          && SameIntent(db.jobs[id].payload, db'.jobs[id].payload)
          && db'.jobs[id].maxAttempts == db.jobs[id].maxAttempts
          && (db.jobs[id].status.Succeeded? ==> db'.jobs[id] == db.jobs[id]))
  }

  /** Only the first unfinished job is ever handed to `apply`. */
  ghost predicate AppliesInOrder(w: World, w': World) {
    || w'.applied == w.applied
    || (exists id :: AppliedNext(w, w', id))
  }

  ghost predicate AppliedNext(w: World, w': World, id: JobId) {
    && id in w.db.jobs
    && !w.db.jobs[id].status.Succeeded?
    && AllBelowSucceeded(w.db.jobs, id)
    && w'.applied == w.applied + [id]
    && id in w'.db.jobs
    && multiset(w'.applied)[id] <= w'.db.jobs[id].attempts
  }

  lemma LogBelow(w: World, w': World)
    requires WorldInv(w) && Evolves(w.db, w'.db) && AppliesInOrder(w, w')
    ensures forall k | 0 <= k < |w'.applied| ::
              w'.applied[k] in w'.db.jobs && AllBelowSucceeded(w'.db.jobs, w'.applied[k])
  {
    hide BlockersInv, JobOk;
    forall k | 0 <= k < |w'.applied|
      ensures w'.applied[k] in w.db.jobs && AllBelowSucceeded(w'.db.jobs, w'.applied[k])
    {
      if k < |w.applied| {
        BelowStays(w.db, w'.db, w.applied[k]);
      } else {
        var id :| AppliedNext(w, w', id);
        BelowStays(w.db, w'.db, id);
      }
    }
  }

  /** The log of a run that applied nothing, or applied the first unfinished job. */
  lemma LogKeeps(w: World, w': World)
    requires WorldInv(w) && Evolves(w.db, w'.db)
    requires Counted(w', w.db.jobs.Keys)
    requires AppliesInOrder(w, w')
    ensures LogOk(w')
  {
    hide WorldInv, Evolves, Counted, AppliesInOrder, AllBelowSucceeded;
    LogBelow(w, w');
    SortedAfter(w, w');
    CountedAfter(w, w');
  }

  lemma SortedAfter(w: World, w': World)
    requires WorldInv(w) && AppliesInOrder(w, w')
    ensures forall k, l | 0 <= k < l < |w'.applied| :: w'.applied[k] <= w'.applied[l]
  {
  }

  lemma CountedAfter(w: World, w': World)
    requires WorldInv(w) && Evolves(w.db, w'.db) && Counted(w', w.db.jobs.Keys) && AppliesInOrder(w, w')
    ensures forall id | id in w'.db.jobs :: multiset(w'.applied)[id] <= w'.db.jobs[id].attempts
  {
  }

  ghost predicate Counted(w: World, ids: set<JobId>) {
    forall id | id in ids && id in w.db.jobs :: multiset(w.applied)[id] <= w.db.jobs[id].attempts
  }

  /** Rows added later have larger ids, and finished rows stay finished. */
  lemma BelowStays(db: Db, db': Db, id: JobId)
    requires JobsInv(db.jobs, db.nextId) && Evolves(db, db') && id in db.jobs && AllBelowSucceeded(db.jobs, id)
    ensures AllBelowSucceeded(db'.jobs, id)
  {
  }

  lemma FrameEvolves(w: World, s: World, id: JobId)
    requires Frame(w.db, s.db, id) && (s.applied == w.applied || s.applied == w.applied + [id])
    requires Counted(w, w.db.jobs.Keys) && multiset(w.applied)[id] < w.db.jobs[id].attempts
    ensures Evolves(w.db, s.db) && Counted(s, w.db.jobs.Keys)
  {
  }

  /** The part of a run after an unblocked claim. */
  lemma UnblockedBodyKeeps(w: World, env: Env, id: JobId)
    requires WorldInv(w) && FirstClaimable(w.db, env.now, 0) == Some(id) && env.claim.Acked?
    requires !Blocked(Claimed(w.db, id, env.now), id)
    ensures var s := Body(w, env);
            var c := Claimed(w.db, id, env.now);
            && Mine(s.world.db, id) && Frame(c, s.world.db, id)
            && (s.world.applied == w.applied || s.world.applied == w.applied + [id])
            && s.metadata == Some(Metadata(id, if ValidPayload(c.jobs[id].payload) then Some(c.jobs[id].payload.identity) else None))
  {
    ClaimKeeps(w.db, id, env.now);
    var c := Claimed(w.db, id, env.now);
    var claimed := w.(db := c);
    if ValidPayload(c.jobs[id].payload) {
      ProjectKeeps(claimed, id, c.jobs[id].payload.identity, env);
    } else {
      PersistKeeps(claimed, c, id, None, FinalizationUnknown, false, env.mark);
    }
  }

  ghost predicate Kept(w: World, s: Stage) {
    && Inv(s.world.db) && MetadataOk(s) && Evolves(w.db, s.world.db)
    && AppliesInOrder(w, s.world) && Counted(s.world, w.db.jobs.Keys)
  }

  function HeldDb(w: World, env: Env, id: JobId): Db
    requires id in w.db.jobs
  {
    var c := Claimed(w.db, id, env.now);
    if env.claim.Acked? then After(c, Unclaimed(c, id), env.reset) else After(w.db, c, env.claim)
  }

  /** A claim that is lost or blocked ends the run with at most that claim in the database. */
  lemma HeldBody(w: World, env: Env, id: JobId)
    requires FirstClaimable(w.db, env.now, 0) == Some(id)
    requires env.claim.Acked? ==> Blocked(Claimed(w.db, id, env.now), id)
    ensures var s := Body(w, env);
            && s.metadata.None? && s.world == w.(db := HeldDb(w, env, id))
            && Reconcile(w, env).0 == s.world
            && s.world.db.blockers == w.db.blockers && s.world.db.jobs.Keys == w.db.jobs.Keys
            && (forall k | k in w.db.jobs :: s.world.db.jobs[k].error == w.db.jobs[k].error)
  {
  }

  lemma HeldKept(w: World, env: Env, id: JobId)
    requires WorldInv(w) && FirstClaimable(w.db, env.now, 0) == Some(id)
    ensures var db' := HeldDb(w, env, id);
            Inv(db') && Evolves(w.db, db') && Counted(w.(db := db'), w.db.jobs.Keys)
  {
    hide Claimed, Unclaimed, JobsInv, BlockersInv;
    ClaimKeeps(w.db, id, env.now);
    var c := Claimed(w.db, id, env.now);
    UnclaimKeeps(c, id);
    EvolvesTrans(w.db, c, Unclaimed(c, id));
    var db' := HeldDb(w, env, id);
    assert db' == w.db || db' == c || db' == Unclaimed(c, id);
    forall k | k in w.db.jobs
      ensures w.db.jobs[k].attempts <= db'.jobs[k].attempts
    {
    }
  }

  /** The whole body of a run. */
  lemma BodyKeeps(w: World, env: Env)
    requires WorldInv(w)
    ensures Kept(w, Body(w, env))
  {
    var first := FirstClaimable(w.db, env.now, 0);
    if first.Some? {
      var id := first.value;
      var c := Claimed(w.db, id, env.now);
      if env.claim.Acked? && !Blocked(c, id) {
        ClaimKeeps(w.db, id, env.now);
        UnblockedBodyKeeps(w, env, id);
        UnblockedKept(w, c, id, Body(w, env));
      } else {
        HeldBody(w, env, id);
        HeldKept(w, env, id);
      }
    }
  }

  lemma UnblockedKept(w: World, c: Db, id: JobId, s: Stage)
    requires WorldInv(w) && id in w.db.jobs && !w.db.jobs[id].status.Succeeded?
    requires Evolves(w.db, c) && Mine(c, id) && Frame(c, s.world.db, id) && Mine(s.world.db, id)
    requires c.jobs.Keys == w.db.jobs.Keys
    requires forall k | k in w.db.jobs :: w.db.jobs[k].attempts <= c.jobs[k].attempts
    requires c.jobs[id].attempts == w.db.jobs[id].attempts + 1
    requires forall k | k in w.db.jobs && k < id :: w.db.jobs[k].status == c.jobs[k].status
    requires s.world.applied == w.applied || s.world.applied == w.applied + [id]
    requires s.metadata == Some(Metadata(id, if ValidPayload(c.jobs[id].payload) then Some(c.jobs[id].payload.identity) else None))
    ensures Kept(w, s)
  {
    FrameEvolves(w.(db := c), s.world, id);
    EvolvesTrans(w.db, c, s.world.db);
    assert AllBelowSucceeded(w.db.jobs, id);
    assert s.world.applied == w.applied + [id] ==> AppliedNext(w, s.world, id);
  }

  lemma RunKeeps(w: World, env: Env)
    requires WorldInv(w)
    ensures var w' := Reconcile(w, env).0;
            WorldInv(w') && Evolves(w.db, w'.db) && AppliesInOrder(w, w')
  {
    BodyKeeps(w, env);
    var s := Body(w, env);
    UnlockKeeps(s, env.release);
    var w' := Reconcile(w, env).0;
    if w'.applied != w.applied {
      var id :| AppliedNext(w, s.world, id);
      assert AppliedNext(w, w', id);
    }
    LogKeeps(w, w');
  }

  lemma EnqueuedKeeps(db: Db, i: Identity, now: int)
    requires Inv(db)
    ensures Inv(Enqueued(db, i, now)) && Evolves(db, Enqueued(db, i, now))
  {
  }

  lemma EnqueueKeeps(w: World, i: Identity, now: int, commit: Commit)
    requires WorldInv(w)
    ensures var w' := w.(db := EnqueueStep(w.db, i, now, commit));
            WorldInv(w') && Evolves(w.db, w'.db)
  {
    hide ValidIdentity, JobsInv, BlockersInv;
    EnqueuedKeeps(w.db, i, now);
    var w' := w.(db := EnqueueStep(w.db, i, now, commit));
    if w' != w {
      assert w'.db == Enqueued(w.db, i, now);
      assert Counted(w', w.db.jobs.Keys);
      LogKeeps(w, w');
    }
  }

  // -------------------------------------------------------- all sequences

  lemma EvolvesTrans(a: Db, b: Db, c: Db)
    requires Evolves(a, b) && Evolves(b, c)
    ensures Evolves(a, c)
  {
  }

  /** In order, bounded, final. After any steps whatsoever: the log of applied jobs never goes back
      to a lower job, no job was applied more often than it was claimed nor claimed beyond its
      limit, everything below an applied job has succeeded, and a finalized row never changes. */
  lemma {:induction false} InOrderBoundedFinal(w: World, steps: seq<Step>)
    requires WorldInv(w)
    ensures var w' := Exec(w, steps);
            && WorldInv(w') && Evolves(w.db, w'.db)
            && (forall k, l | 0 <= k < l < |w'.applied| :: w'.applied[k] <= w'.applied[l])
            && (forall id | id in w'.db.jobs ::
                  multiset(w'.applied)[id] <= w'.db.jobs[id].attempts <= w'.db.jobs[id].maxAttempts)
            && (forall id | id in w'.applied :: AllBelowSucceeded(w'.db.jobs, id))
    decreases |steps|
  {
    if steps != [] {
      match steps[0] {
        case Enqueue(i, now, commit) => EnqueueKeeps(w, i, now, commit);
        case Work(env) => RunKeeps(w, env);
      }
      InOrderBoundedFinal(Next(w, steps[0]), steps[1..]);
      EvolvesTrans(w.db, Next(w, steps[0]).db, Exec(w, steps).db);
    }
  }

  // ----------------------------------------------------------------- freeze

  /** Some durable record says that the state of the forwarder is not known. */
  ghost predicate Frozen(db: Db) {
    UnresolvedBlocker(db) || exists id | id in db.jobs :: IsUnknown(db.jobs[id].error)
  }

  lemma FrozenBlocksEveryClaim(db: Db, id: JobId, now: int)
    requires Inv(db) && Frozen(db) && id in db.jobs && Claimable(db.jobs[id], now)
    ensures Blocked(db, id)
  {
  }

  lemma FrozenEnqueue(w: World, i: Identity, now: int, commit: Commit)
    requires WorldInv(w) && Frozen(w.db)
    ensures Frozen(EnqueueStep(w.db, i, now, commit))
  {
    hide ValidIdentity, BlockersInv, JobOk, LogOk;
    var db' := EnqueueStep(w.db, i, now, commit);
    if !UnresolvedBlocker(w.db) {
      var u :| u in w.db.jobs && IsUnknown(w.db.jobs[u].error);
      assert u in db'.jobs && IsUnknown(db'.jobs[u].error);
    }
  }

  lemma FrozenRun(w: World, env: Env)
    requires WorldInv(w) && Frozen(w.db)
    ensures var w' := Reconcile(w, env).0;
            w'.runtime == w.runtime && w'.applied == w.applied && Frozen(w'.db)
  {
    hide BlockersInv, JobOk;
    var first := FirstClaimable(w.db, env.now, 0);
    if first.Some? {
      var id := first.value;
      hide Reconcile;
      FrozenBlocksEveryClaim(w.db, id, env.now);
      ClaimKeeps(w.db, id, env.now);
      HeldBody(w, env, id);
      var w' := Reconcile(w, env).0;
      if !UnresolvedBlocker(w.db) {
        var u :| u in w.db.jobs && IsUnknown(w.db.jobs[u].error);
        assert u in w'.db.jobs && IsUnknown(w'.db.jobs[u].error);
      }
    }
  }

  /** Freeze. Once a record of uncertainty is durable, no later step of any kind, for any job,
      reaches `apply` or moves the forwarder, and the record stays. */
  lemma {:induction false} FreezeIsForever(w: World, steps: seq<Step>)
    requires WorldInv(w) && Frozen(w.db)
    ensures var w' := Exec(w, steps);
            w'.applied == w.applied && w'.runtime == w.runtime && Frozen(w'.db)
    decreases |steps|
  {
    hide Reconcile, EnqueueStep, WorldInv, Frozen, Evolves;
    if steps != [] {
      match steps[0] {
        case Enqueue(i, now, commit) =>
          EnqueueKeeps(w, i, now, commit);
          FrozenEnqueue(w, i, now, commit);
        case Work(env) =>
          RunKeeps(w, env);
          FrozenRun(w, env);
      }
      FreezeIsForever(Next(w, steps[0]), steps[1..]);
    }
  }

  // ------------------------------------- an uncertain run and its records

  /** A claim that is not blocked starts from a database without any record of uncertainty. */
  lemma UnblockedIsUnfrozen(db: Db, id: JobId)
    requires Mine(db, id) && Open(db, id) && !Blocked(db, id)
    ensures !Frozen(db)
  {
  }

  /** A record that the release of the lock cannot take back. */
  ghost predicate Recorded(s: Stage) {
    || (exists id | id in s.world.db.jobs :: IsUnknown(s.world.db.jobs[id].error))
    || (exists k | k in s.world.db.blockers :: k.kind.Finalization? && !s.world.db.blockers[k].status.Succeeded?)
    || (s.unknown && UnresolvedBlocker(s.world.db))
  }

  /** An uncertain stage has recorded its uncertainty, or changed nothing since `db` and says so. */
  ghost predicate Honest(s: Stage, db: Db) {
    s.fate.Uncertain? ==> Recorded(s) || (s.world.db == db && (s.unknown || s.signal.Crashed?))
  }

  lemma PersistIsHonest(w: World, proposed: Db, id: JobId, identity: Option<Identity>, d: Code, applied: bool, m: Mark)
    ensures var s := PersistUnknownBlocker(w, proposed, id, identity, d, applied, m);
            Recorded(s) || (s.world == w && (s.unknown || s.signal.Crashed?))
  {
  }

  lemma MarkUnknownIsHonest(
    w: World, db: Db, id: JobId, i: Identity, fingerprint: string, d: Code, persist: bool, now: int, m: Mark
  )
    requires w.db == db || ExactSuccess(w.db, id, i, fingerprint)
    requires IsUnknown(Some(d))
    ensures Honest(MarkUnknown(w, id, i, fingerprint, d, persist, now, m), db)
  {
    var s := MarkUnknown(w, id, i, fingerprint, d, persist, now, m);
    if s.fate.Uncertain? {
      if m.readRaises {
        assert ExactSuccess(w.db, id, i, fingerprint) ==> !w.db.blockers[BlockerKey(LockRelease, id)].status.Succeeded?;
      } else if !ExactClaim(w.db, id, i) {
        PersistIsHonest(w, w.db, id, Some(i), d, true, m);
      } else {
        var marked := MarkedRow(w.db, id, d, now);
        assert IsUnknown(marked.jobs[id].error);
        if persist {
          PersistIsHonest(w, marked, id, Some(i), d, true, m);
        } else if m.commit.Lands() {
          assert s.world.db == marked;
        }
      }
    }
  }

  lemma ProjectIsHonest(w: World, id: JobId, i: Identity, env: Env)
    requires Mine(w.db, id) && Open(w.db, id)
    requires ValidPayload(w.db.jobs[id].payload) && w.db.jobs[id].payload.identity == i
    ensures Honest(Project(w, id, i, env), w.db)
  {
    hide MarkUnknown, Finalize, Fail, FailGuarded, Forwarder.Apply, Recorded;
    if env.prepare.Prepared? && env.prepare.revision == i.revision {
      var c := env.prepare.candidate;
      var p := Forwarder.Apply(w.runtime, c, env.script);
      var w' := World(w.db, p.runtime, w.applied + [id]);
      MarkUnknownIsHonest(w', w.db, id, i, c.version, Code.RollbackUnknown, false, env.later, env.mark);
      MarkUnknownIsHonest(w', w.db, id, i, c.version, RuntimeUnknown, true, env.later, env.mark);
      MarkUnknownIsHonest(w', w.db, id, i, c.version, RuntimeUnknown, false, env.later, env.mark);
      if env.verdict.Verdict? && ValidEvidenceVersion(env.verdict.evidenceVersion) {
        FinalizeIsHonest(w', id, Evidence(i, c.version, env.verdict.evidenceVersion), env);
      }
    }
  }

  lemma FinalizeIsHonest(w: World, id: JobId, e: Evidence, env: Env)
    requires Mine(w.db, id) && Open(w.db, id)
    requires ValidPayload(w.db.jobs[id].payload) && w.db.jobs[id].payload.identity == e.identity
    requires ValidEvidenceVersion(e.verification)
    ensures Honest(Finalize(w, id, e, env), w.db)
  {
    hide MarkUnknown, FailGuarded, Recorded, JobsInv, BlockersInv, ExactSuccess, ExactClaim;
    FinalizedKeeps(w.db, id, e);
    var proposed := FinalizedDb(w.db, id, e).value;
    var w' := if env.ensureRaises then w else w.(db := After(w.db, proposed, env.finalize));
    MarkUnknownIsHonest(w', w.db, id, e.identity, e.fingerprint, FinalizationUnknown, false, env.later, env.mark);
  }

  lemma BodyIsHonest(w: World, env: Env)
    requires WorldInv(w) && Body(w, env).fate.Uncertain?
    ensures FirstClaimable(w.db, env.now, 0).Some? && env.claim.Acked?
    ensures var c := Claimed(w.db, FirstClaimable(w.db, env.now, 0).value, env.now);
            !Frozen(c) && Honest(Body(w, env), c)
  {
    var id := FirstClaimable(w.db, env.now, 0).value;
    var c := Claimed(w.db, id, env.now);
    ClaimKeeps(w.db, id, env.now);
    UnblockedIsUnfrozen(c, id);
    if ValidPayload(c.jobs[id].payload) {
      ProjectIsHonest(w.(db := c), id, c.jobs[id].payload.identity, env);
    } else {
      PersistIsHonest(w.(db := c), c, id, None, FinalizationUnknown, false, env.mark);
    }
  }

  /** Leaving the lock changes only the release blocker of the run, and closes it only after a
      confirmed release of a run without unknown durable state. */
  lemma UnlockShape(s: Stage, r: Release)
    requires Inv(s.world.db) && MetadataOk(s) && s.metadata.Some?
    ensures var db' := Unlock(s, r).0.db;
            var key := BlockerKey(LockRelease, s.metadata.value.source);
            && db'.jobs == s.world.db.jobs && db'.nextId == s.world.db.nextId
            && (forall k | k in s.world.db.blockers && k != key ::
                  k in db'.blockers && db'.blockers[k] == s.world.db.blockers[k])
            && (s.signal.Crashed? ==> db' == s.world.db)
            && (|| db' == s.world.db
                || (key in db'.blockers && !db'.blockers[key].status.Succeeded?)
                || (!s.unknown && r.commit.Acked? && r.unlocked && r.resolve.Lands()))
            && (key in s.world.db.blockers ==> key in db'.blockers)
  {
    hide JobsInv, BlockersInv;
    UnlockKeeps(s, r);
    OpenReleaseKeeps(s.world.db, s.metadata.value.source, s.metadata.value.identity);
  }

  lemma UnlockKeepsRecords(s: Stage, db: Db, r: Release)
    requires Inv(s.world.db) && MetadataOk(s) && s.fate.Uncertain? && s.metadata.Some?
    requires !Frozen(db) && Honest(s, db)
    ensures var db' := Unlock(s, r).0.db;
            Frozen(db') <==> db' != db
  {
    var db' := Unlock(s, r).0.db;
    UnlockShape(s, r);
    var key := BlockerKey(LockRelease, s.metadata.value.source);
    if exists k | k in s.world.db.jobs :: IsUnknown(s.world.db.jobs[k].error) {
      var k :| k in s.world.db.jobs && IsUnknown(s.world.db.jobs[k].error);
      assert k in db'.jobs && IsUnknown(db'.jobs[k].error);
    } else if exists k | k in s.world.db.blockers :: k.kind.Finalization? && !s.world.db.blockers[k].status.Succeeded? {
      var k :| k in s.world.db.blockers && k.kind.Finalization? && !s.world.db.blockers[k].status.Succeeded?;
      assert k in db'.blockers && !db'.blockers[k].status.Succeeded?;
    } else if s.unknown && UnresolvedBlocker(s.world.db) {
      var k :| k in s.world.db.blockers && !s.world.db.blockers[k].status.Succeeded?;
      if db' != s.world.db {
        assert key in db'.blockers && !db'.blockers[key].status.Succeeded?;
      }
    } else if db' != db {
      assert key in db'.blockers && !db'.blockers[key].status.Succeeded?;
    }
  }

  /** An uncertain run freezes the queue unless its claim is all that reached the database. */
  lemma FrozenUnlessOnlyClaimed(w: World, env: Env)
    requires WorldInv(w) && Body(w, env).fate.Uncertain?
    ensures FirstClaimable(w.db, env.now, 0).Some?
    ensures var db' := Reconcile(w, env).0.db;
            Frozen(db') <==> db' != Claimed(w.db, FirstClaimable(w.db, env.now, 0).value, env.now)
  {
    BodyKeeps(w, env);
    BodyIsHonest(w, env);
    var id := FirstClaimable(w.db, env.now, 0).value;
    UnblockedBodyKeeps(w, env, id);
    UnlockKeepsRecords(Body(w, env), Claimed(w.db, id, env.now), env.release);
  }

  // The conditions below are over the claimed rows and the answers of the environment alone.

  function ProviderOutcome(w: World, env: Env): Forwarder.Outcome
    requires env.prepare.Prepared?
  {
    Forwarder.Apply(w.runtime, env.prepare.candidate, env.script).outcome
  }

  /** The finalizing transaction is durable. */
  predicate FinalizeLanded(env: Env) {
    !env.ensureRaises && env.finalize.Lands()
  }

  /** A claimed job ends uncertain: an unreadable payload, a rollback that could not be verified, an
      unconfirmed apply, a failed verification, or a finalization nobody can classify. */
  predicate EndsUncertain(w: World, id: JobId, env: Env)
    requires id in w.db.jobs
  {
    var payload := w.db.jobs[id].payload;
    !ValidPayload(payload) ||
    (&& env.prepare.Prepared? && env.prepare.revision == payload.identity.revision
     && var o := ProviderOutcome(w, env);
        (|| o.RollbackUnknown? || o.Unconfirmed?
         || (o.Applied? &&
             (!Verified(env.verdict) ||
              (&& (env.ensureRaises || env.finalize.Raises()) && !env.observerWorks
               && (FinalizeLanded(env) ==> !env.mark.observerWorks && env.mark.readRaises))))))
  }

  /** The finalization of this run is what nobody could classify. */
  predicate Unclassified(w: World, id: JobId, env: Env)
    requires id in w.db.jobs && EndsUncertain(w, id, env)
  {
    ValidPayload(w.db.jobs[id].payload) && ProviderOutcome(w, env).Applied? && Verified(env.verdict)
  }

  /** The record of the uncertain outcome gets as far as its commit. */
  predicate MarkAttempted(w: World, id: JobId, env: Env)
    requires id in w.db.jobs && EndsUncertain(w, id, env)
  {
    var payload := w.db.jobs[id].payload;
    if !ValidPayload(payload) then
      !env.mark.ensureRaises && OpenFinalization(w.db, id, None, FinalizationUnknown).Some?
    else if ProviderOutcome(w, env).Unconfirmed? then
      && !env.mark.readRaises && !env.mark.ensureRaises
      && OpenFinalization(MarkedRow(w.db, id, RuntimeUnknown, env.later), id, Some(payload.identity), RuntimeUnknown).Some?
    else !env.mark.readRaises
  }

  /** The body of the run leaves a durable record. */
  predicate BodyRecords(w: World, id: JobId, env: Env)
    requires id in w.db.jobs && EndsUncertain(w, id, env)
  {
    (MarkAttempted(w, id, env) && env.mark.commit.Lands()) || (Unclassified(w, id, env) && FinalizeLanded(env))
  }

  /** The run survives its body and opens a durable release blocker. */
  predicate ReleaseRecords(w: World, id: JobId, env: Env)
    requires id in w.db.jobs && EndsUncertain(w, id, env)
  {
    && !(MarkAttempted(w, id, env) && env.mark.commit.Crashes())
    && !env.release.ensureRaises && env.release.commit.Lands()
  }

  /** What an uncertain body leaves, against the claimed rows. */
  ghost predicate BodyLeaves(s: Stage, w: World, id: JobId, env: Env)
    requires id in w.db.jobs && EndsUncertain(w, id, env)
  {
    && s.fate.Uncertain?
    && (s.signal.Crashed? <==> MarkAttempted(w, id, env) && env.mark.commit.Crashes())
    && (s.world.db == w.db <==> !BodyRecords(w, id, env))
    && (s.world.db == w.db && !s.signal.Crashed? ==> s.unknown)
    && (BodyRecords(w, id, env) ==>
          || s.world.db.jobs != w.db.jobs
          || (BlockerKey(Finalization, id) in s.world.db.blockers
              && (BlockerKey(Finalization, id) in w.db.blockers ==>
                    w.db.blockers[BlockerKey(Finalization, id)] != s.world.db.blockers[BlockerKey(Finalization, id)])))
  }

  lemma PersistLeaves(w: World, proposed: Db, id: JobId, identity: Option<Identity>, d: Code, applied: bool, m: Mark)
    requires !UnresolvedBlocker(proposed)
    ensures var s := PersistUnknownBlocker(w, proposed, id, identity, d, applied, m);
            var guard := OpenFinalization(proposed, id, identity, d);
            var runs := !m.ensureRaises && guard.Some?;
            var key := BlockerKey(Finalization, id);
            && s.fate.Uncertain? && (s.signal.Crashed? <==> runs && m.commit.Crashes())
            && s.world.db == (if runs && m.commit.Lands() then guard.value else w.db)
            && (!(runs && m.commit.Lands()) && !s.signal.Crashed? ==> s.unknown)
            && (guard.Some? ==> guard.value.jobs == proposed.jobs && key in guard.value.blockers
                                && (key in proposed.blockers ==> proposed.blockers[key] != guard.value.blockers[key]))
  {
  }

  lemma MarkLeaves(w: World, id: JobId, i: Identity, fingerprint: string, d: Code, now: int, m: Mark)
    requires ExactClaim(w.db, id, i) && IsUnknown(Some(d))
    ensures var s := MarkUnknown(w, id, i, fingerprint, d, false, now, m);
            && s.fate.Uncertain? && (s.signal.Crashed? <==> !m.readRaises && m.commit.Crashes())
            && s.world.db == (if !m.readRaises && m.commit.Lands() then MarkedRow(w.db, id, d, now) else w.db)
            && (!(!m.readRaises && m.commit.Lands()) && !s.signal.Crashed? ==> s.unknown)
            && MarkedRow(w.db, id, d, now).jobs[id] != w.db.jobs[id]
  {
  }

  lemma MarkAndPersistLeaves(w: World, id: JobId, i: Identity, fingerprint: string, d: Code, now: int, m: Mark)
    requires ExactClaim(w.db, id, i) && IsUnknown(Some(d)) && !UnresolvedBlocker(w.db)
    ensures var s := MarkUnknown(w, id, i, fingerprint, d, true, now, m);
            var marked := MarkedRow(w.db, id, d, now);
            var guard := OpenFinalization(marked, id, Some(i), d);
            var runs := !m.readRaises && !m.ensureRaises && guard.Some?;
            && s.fate.Uncertain? && (s.signal.Crashed? <==> runs && m.commit.Crashes())
            && s.world.db == (if runs && m.commit.Lands() then guard.value else w.db)
            && (!(runs && m.commit.Lands()) && !s.signal.Crashed? ==> s.unknown)
            && (guard.Some? ==> guard.value.jobs[id] != w.db.jobs[id])
  {
  }

  /** A finalization that nobody can classify. */
  lemma FinalizeLeaves(w: World, id: JobId, e: Evidence, env: Env)
    requires Mine(w.db, id) && Open(w.db, id)
    requires ValidPayload(w.db.jobs[id].payload) && w.db.jobs[id].payload.identity == e.identity
    requires ValidEvidenceVersion(e.verification)
    ensures var s := Finalize(w, id, e, env);
            var uncertain := && (env.ensureRaises || env.finalize.Raises()) && !env.observerWorks
                             && (FinalizeLanded(env) ==> !env.mark.observerWorks && env.mark.readRaises);
            && (s.fate.Uncertain? <==> uncertain)
            && (uncertain ==>
                  && (s.signal.Crashed? <==> !env.mark.readRaises && env.mark.commit.Crashes())
                  && (s.world.db == w.db <==> !FinalizeLanded(env) && !(!env.mark.readRaises && env.mark.commit.Lands()))
                  && (s.world.db == w.db && !s.signal.Crashed? ==> s.unknown)
                  && (s.world.db != w.db ==> s.world.db.jobs != w.db.jobs))
  {
    hide JobsInv, BlockersInv, FailGuarded, FinalizedDb;
    FinalizedKeeps(w.db, id, e);
    ClassificationIsExact(w, id, e, env);
    ClaimIsExact(w.db, id, e.identity);
    MarkLeaves(w, id, e.identity, e.fingerprint, FinalizationUnknown, env.later, env.mark);
  }

  lemma ClaimIsExact(db: Db, id: JobId, i: Identity)
    requires Mine(db, id) && Open(db, id) && ValidPayload(db.jobs[id].payload) && db.jobs[id].payload.identity == i
    ensures ExactClaim(db, id, i)
  {
  }

  lemma ProjectLeaves(w: World, id: JobId, i: Identity, env: Env)
    requires Mine(w.db, id) && Open(w.db, id) && !UnresolvedBlocker(w.db)
    requires ValidPayload(w.db.jobs[id].payload) && w.db.jobs[id].payload.identity == i
    ensures Project(w, id, i, env).fate.Uncertain? <==> EndsUncertain(w, id, env)
    ensures EndsUncertain(w, id, env) ==> BodyLeaves(Project(w, id, i, env), w, id, env)
  {
    hide MarkUnknown, Finalize, Fail, FailGuarded, Forwarder.Apply, JobsInv, BlockersInv, OpenFinalization;
    if env.prepare.Prepared? && env.prepare.revision == i.revision {
      var c := env.prepare.candidate;
      var p := Forwarder.Apply(w.runtime, c, env.script);
      var w' := World(w.db, p.runtime, w.applied + [id]);
      ClaimIsExact(w.db, id, i);
      match p.outcome {
        case Died =>
        case RollbackUnknown => MarkLeaves(w', id, i, c.version, Code.RollbackUnknown, env.later, env.mark);
        case RollbackVerified =>
        case Refused =>
        case Unconfirmed => MarkAndPersistLeaves(w', id, i, c.version, RuntimeUnknown, env.later, env.mark);
        case Applied =>
          if Verified(env.verdict) {
            FinalizeLeaves(w', id, Evidence(i, c.version, env.verdict.evidenceVersion), env);
          } else {
            MarkLeaves(w', id, i, c.version, RuntimeUnknown, env.later, env.mark);
          }
      }
    }
  }

  /** When a run ends uncertain, and what its body leaves. */
  lemma BodyEndsUncertain(w: World, env: Env, id: JobId)
    requires WorldInv(w) && FirstClaimable(w.db, env.now, 0) == Some(id) && env.claim.Acked? && !Blocked(w.db, id)
    ensures var c := w.(db := Claimed(w.db, id, env.now));
            && (Body(w, env).fate.Uncertain? <==> EndsUncertain(c, id, env))
            && (EndsUncertain(c, id, env) ==> BodyLeaves(Body(w, env), c, id, env))
  {
    hide JobsInv, BlockersInv, LogOk, Project, PersistUnknownBlocker, OpenFinalization;
    ClaimKeeps(w.db, id, env.now);
    var c := w.(db := Claimed(w.db, id, env.now));
    assert !UnresolvedBlocker(c.db);
    if ValidPayload(c.db.jobs[id].payload) {
      ProjectLeaves(c, id, c.db.jobs[id].payload.identity, env);
    } else {
      PersistLeaves(c, c.db, id, None, FinalizationUnknown, false, env.mark);
    }
  }

  /** Leaving the lock after an uncertain body. */
  lemma UnlockLeaves(s: Stage, w: World, id: JobId, env: Env)
    requires id in w.db.jobs && EndsUncertain(w, id, env) && BodyLeaves(s, w, id, env)
    requires Inv(s.world.db) && MetadataOk(s) && s.metadata.Some? && s.metadata.value.source == id
    requires !UnresolvedBlocker(w.db)
    ensures Unlock(s, env.release).0.db != w.db <==> BodyRecords(w, id, env) || ReleaseRecords(w, id, env)
  {
    hide JobsInv, BlockersInv, BodyRecords, MarkAttempted, EndsUncertain;
    UnlockShape(s, env.release);
    var key := BlockerKey(LockRelease, id);
    OpenReleaseKeeps(s.world.db, id, s.metadata.value.identity);
    if !BodyRecords(w, id, env) && ReleaseRecords(w, id, env) {
      assert s.unknown;
      assert key in w.db.blockers ==> w.db.blockers[key].status.Succeeded?;
    }
  }

  /** An uncertain run freezes the queue exactly when one of its records lands: the diagnostic or the
      blocker of its body, its own finalization, or the release blocker of a run that survived its
      body. Otherwise the claim is all there is. */
  lemma UncertainRunFreezes(w: World, env: Env, id: JobId)
    requires WorldInv(w) && FirstClaimable(w.db, env.now, 0) == Some(id) && env.claim.Acked? && !Blocked(w.db, id)
    requires EndsUncertain(w.(db := Claimed(w.db, id, env.now)), id, env)
    ensures var c := w.(db := Claimed(w.db, id, env.now));
            var db' := Reconcile(w, env).0.db;
            && (Frozen(db') <==> BodyRecords(c, id, env) || ReleaseRecords(c, id, env))
            && (!Frozen(db') ==> db' == c.db)
  {
    hide EndsUncertain, BodyRecords, ReleaseRecords, BodyLeaves, JobsInv, BlockersInv, LogOk, Body, Unlock;
    var c := w.(db := Claimed(w.db, id, env.now));
    BodyEndsUncertain(w, env, id);
    UncertainBody(w, env, id);
    FrozenUnlessOnlyClaimed(w, env);
    UnlockLeaves(Body(w, env), c, id, env);
  }

  /** An uncertain run none of whose records landed cannot be told from a dead worker: once its claim is
      stale and attempts remain, the same job is claimed again and reaches `apply` a second time. */
  lemma UnrecordedUncertaintyIsRetried(w: World, env: Env, id: JobId, again: Env)
    requires WorldInv(w) && FirstClaimable(w.db, env.now, 0) == Some(id) && env.claim.Acked? && !Blocked(w.db, id)
    requires EndsUncertain(w.(db := Claimed(w.db, id, env.now)), id, env)
    requires var c := w.(db := Claimed(w.db, id, env.now)); !BodyRecords(c, id, env) && !ReleaseRecords(c, id, env)
    requires again.now > env.now + STALE_AFTER && again.claim.Acked? && w.db.jobs[id].attempts + 1 < w.db.jobs[id].maxAttempts
    requires var p := w.db.jobs[id].payload;
             ValidPayload(p) && again.prepare.Prepared? && again.prepare.revision == p.identity.revision
    ensures var w' := Reconcile(w, env).0;
            FirstClaimable(w'.db, again.now, 0) == Some(id) && Reconcile(w', again).0.applied == w'.applied + [id]
  {
    hide EndsUncertain, BodyRecords, ReleaseRecords, BlockersInv, JobOk, LogOk;
    UncertainRunFreezes(w, env, id);
    var w' := Reconcile(w, env).0;
    hide Reconcile;
    ClaimKeeps(w.db, id, env.now);
    RunKeeps(w, env);
    assert w'.db == Claimed(w.db, id, env.now);
    assert Claimable(w'.db.jobs[id], again.now);
    StaleClaimIsFirst(w'.db, id, again.now);
    AppliedWhenPrepared(w', again, id);
  }

  lemma StaleClaimIsFirst(db: Db, id: JobId, now: int)
    requires Mine(db, id) && Claimable(db.jobs[id], now)
    ensures FirstClaimable(db, now, 0) == Some(id)
  {
  }

  lemma ProjectedKeepsLog(w: World, id: JobId, i: Identity, c: Forwarder.Candidate, o: Forwarder.Outcome, env: Env)
    requires id in w.db.jobs
    ensures Projected(w, id, i, c, o, env).world.applied == w.applied
  {
  }

  lemma AppliedWhenPrepared(w: World, env: Env, id: JobId)
    requires FirstClaimable(w.db, env.now, 0) == Some(id) && env.claim.Acked? && !Blocked(Claimed(w.db, id, env.now), id)
    requires var p := w.db.jobs[id].payload;
             ValidPayload(p) && env.prepare.Prepared? && env.prepare.revision == p.identity.revision
    ensures Reconcile(w, env).0.applied == w.applied + [id]
  {
    hide Projected, Blocked;
    var c := Claimed(w.db, id, env.now);
    var i := w.db.jobs[id].payload.identity;
    var p := Forwarder.Apply(w.runtime, env.prepare.candidate, env.script);
    ProjectedKeepsLog(World(c, p.runtime, w.applied + [id]), id, i, env.prepare.candidate, p.outcome, env);
    UnlockKeepsLog(Body(w, env), env.release);
  }

  lemma UnlockKeepsLog(s: Stage, r: Release)
    ensures Unlock(s, r).0.applied == s.world.applied
  {
  }

  lemma UncertainBody(w: World, env: Env, id: JobId)
    requires WorldInv(w) && FirstClaimable(w.db, env.now, 0) == Some(id) && env.claim.Acked? && !Blocked(w.db, id)
    requires EndsUncertain(w.(db := Claimed(w.db, id, env.now)), id, env)
    ensures var s := Body(w, env);
            && s.fate.Uncertain? && Inv(s.world.db) && MetadataOk(s) && s.metadata.Some? && s.metadata.value.source == id
            && !UnresolvedBlocker(Claimed(w.db, id, env.now))
  {
    hide EndsUncertain, BodyRecords, JobsInv, BlockersInv, LogOk, Body;
    BodyEndsUncertain(w, env, id);
    BodyKeeps(w, env);
    ClaimKeeps(w.db, id, env.now);
    UnblockedBodyKeeps(w, env, id);
  }

  // ----------------------------------------------------- release of the lock

  /** No blocker is resolved between the two databases. */
  ghost predicate OpensOnly(db: Db, db': Db) {
    forall k | k in db'.blockers && db'.blockers[k].status.Succeeded? ::
      k in db.blockers && db.blockers[k] == db'.blockers[k]
  }

  lemma MarkUnknownOpensOnly(
    w: World, id: JobId, i: Identity, fingerprint: string, d: Code, persist: bool, now: int, m: Mark
  )
    ensures OpensOnly(w.db, MarkUnknown(w, id, i, fingerprint, d, persist, now, m).world.db)
  {
  }

  lemma FinalizeOpensOnly(w: World, id: JobId, e: Evidence, env: Env)
    requires id in w.db.jobs
    ensures OpensOnly(w.db, Finalize(w, id, e, env).world.db)
  {
    hide MarkUnknown, Classify, FinalizedDb, FailGuarded;
    FinalizedOpensOnly(w.db, id, e);
    var proposed := FinalizedDb(w.db, id, e);
    var attempted := !env.ensureRaises && proposed.Some?;
    var w' := if attempted then w.(db := After(w.db, proposed.value, env.finalize)) else w;
    FailGuardedOpensNothing(w', id, RUNTIME_FAILURE, env);
    MarkUnknownOpensOnly(w', id, e.identity, e.fingerprint, FinalizationUnknown, false, env.later, env.mark);
  }

  lemma FinalizedOpensOnly(db: Db, id: JobId, e: Evidence)
    requires id in db.jobs
    ensures FinalizedDb(db, id, e).Some? ==> OpensOnly(db, FinalizedDb(db, id, e).value)
    ensures FinalizedDb(db, id, e).Some? ==> id in FinalizedDb(db, id, e).value.jobs
  {
  }

  lemma FailGuardedOpensNothing(w: World, id: JobId, code: Code, env: Env)
    requires id in w.db.jobs
    ensures FailGuarded(w, id, code, env).0.db.blockers == w.db.blockers
  {
  }

  lemma ProjectOpensOnly(w: World, id: JobId, i: Identity, env: Env)
    requires id in w.db.jobs
    ensures OpensOnly(w.db, Project(w, id, i, env).world.db)
  {
    hide MarkUnknown, Finalize, Forwarder.Apply;
    if env.prepare.Prepared? && env.prepare.revision == i.revision {
      var c := env.prepare.candidate;
      var p := Forwarder.Apply(w.runtime, c, env.script);
      var w' := World(w.db, p.runtime, w.applied + [id]);
      MarkUnknownOpensOnly(w', id, i, c.version, Code.RollbackUnknown, false, env.later, env.mark);
      MarkUnknownOpensOnly(w', id, i, c.version, RuntimeUnknown, true, env.later, env.mark);
      MarkUnknownOpensOnly(w', id, i, c.version, RuntimeUnknown, false, env.later, env.mark);
      if env.verdict.Verdict? {
        FinalizeOpensOnly(w', id, Evidence(i, c.version, env.verdict.evidenceVersion), env);
      }
    }
  }

  /** Inside the body no blocker is ever resolved. */
  lemma BodyOpensOnly(w: World, env: Env)
    ensures OpensOnly(w.db, Body(w, env).world.db)
  {
    var first := FirstClaimable(w.db, env.now, 0);
    if first.Some? {
      var id := first.value;
      var c := Claimed(w.db, id, env.now);
      if env.claim.Acked? && !Blocked(c, id) && ValidPayload(c.jobs[id].payload) {
        ProjectOpensOnly(w.(db := c), id, c.jobs[id].payload.identity, env);
      }
    }
  }

  /** The run confirmed its own release and knew its durable state. */
  predicate ConfirmedRelease(s: Stage, id: JobId, r: Release) {
    && s.metadata.Some? && s.metadata.value.source == id && !s.unknown
    && r.commit.Acked? && r.unlocked && r.resolve.Lands()
  }

  /** Release safety. A release blocker is durably resolved by a run only if that run saw
      RELEASE_LOCK return 1 and had no unknown durable state. */
  lemma ResolvedOnlyAfterConfirmedRelease(w: World, env: Env, id: JobId)
    requires WorldInv(w)
    ensures var key := BlockerKey(LockRelease, id);
            var db' := Reconcile(w, env).0.db;
            key in db'.blockers && db'.blockers[key].status.Succeeded? ==>
              || (key in w.db.blockers && w.db.blockers[key] == db'.blockers[key])
              || ConfirmedRelease(Body(w, env), id, env.release)
  {
    BodyKeeps(w, env);
    BodyOpensOnly(w, env);
    var s := Body(w, env);
    if s.metadata.Some? {
      UnlockShape(s, env.release);
      UnlockClosesOnly(s, env.release, id);
    }
  }

  lemma UnlockClosesOnly(s: Stage, r: Release, id: JobId)
    requires Inv(s.world.db) && MetadataOk(s) && s.metadata.Some?
    ensures var key := BlockerKey(LockRelease, id);
            var db' := Unlock(s, r).0.db;
            key in db'.blockers && db'.blockers[key].status.Succeeded? ==>
              || (key in s.world.db.blockers && s.world.db.blockers[key] == db'.blockers[key])
              || ConfirmedRelease(s, id, r)
  {
    hide JobsInv, BlockersInv, OpenRelease;
    var own := s.metadata.value.source;
    OpenReleaseKeeps(s.world.db, own, s.metadata.value.identity);
    OpenReleaseOpensOnly(s.world.db, own, s.metadata.value.identity);
  }

  lemma OpenReleaseOpensOnly(db: Db, id: JobId, identity: Option<Identity>)
    ensures var o := OpenRelease(db, id, identity);
            o.Some? ==>
              && OpensOnly(db, o.value) && o.value.jobs == db.jobs
              && (forall k | k in db.blockers && k != BlockerKey(LockRelease, id) :: k in o.value.blockers && o.value.blockers[k] == db.blockers[k])
  {
  }

  ghost predicate NewlySucceeded(db: Db, db': Db, id: JobId) {
    && id in db.jobs && !db.jobs[id].status.Succeeded?
    && id in db'.jobs && db'.jobs[id].status.Succeeded?
  }

  lemma FailGuardedNeverFinalizes(w: World, id: JobId, code: Code, env: Env)
    requires id in w.db.jobs
    ensures var db' := FailGuarded(w, id, code, env).0.db;
            id in db'.jobs && (db'.jobs[id].status.Succeeded? ==> db' == w.db)
  {
  }

  /** Recording an unknown outcome leaves an exact success as it is. */
  lemma MarkUnknownNeverRewrites(
    w: World, id: JobId, i: Identity, fingerprint: string, d: Code, persist: bool, now: int, m: Mark
  )
    requires id in w.db.jobs
    requires ExactSuccess(w.db, id, i, fingerprint) || !w.db.jobs[id].status.Succeeded?
    ensures var db' := MarkUnknown(w, id, i, fingerprint, d, persist, now, m).world.db;
            && id in db'.jobs
            && (ExactSuccess(w.db, id, i, fingerprint) ==> db' == w.db)
            && (!w.db.jobs[id].status.Succeeded? ==> !db'.jobs[id].status.Succeeded?)
  {
  }

  lemma FinalizedIsExact(w: World, id: JobId, e: Evidence, env: Env)
    requires Mine(w.db, id) && Open(w.db, id)
    requires ValidPayload(w.db.jobs[id].payload) && w.db.jobs[id].payload.identity == e.identity
    requires ValidEvidenceVersion(e.verification)
    ensures var db' := Finalize(w, id, e, env).world.db;
            id in db'.jobs && db'.jobs[id].status.Succeeded? ==> ExactSuccess(db', id, e.identity, e.fingerprint)
  {
    hide JobsInv, BlockersInv, FailGuarded, MarkUnknown;
    FinalizedKeeps(w.db, id, e);
    ClassificationIsExact(w, id, e, env);
    var w' := if env.ensureRaises then w else w.(db := After(w.db, FinalizedDb(w.db, id, e).value, env.finalize));
    FailGuardedNeverFinalizes(w', id, RUNTIME_FAILURE, env);
    MarkUnknownNeverRewrites(w', id, e.identity, e.fingerprint, FinalizationUnknown, false, env.later, env.mark);
  }

  lemma ProjectedSucceedsOpen(w: World, id: JobId, i: Identity, c: Forwarder.Candidate, o: Forwarder.Outcome, env: Env)
    requires Mine(w.db, id) && Open(w.db, id)
    requires ValidPayload(w.db.jobs[id].payload) && w.db.jobs[id].payload.identity == i
    ensures var db' := Projected(w, id, i, c, o, env).world.db;
            id in db'.jobs && db'.jobs[id].status.Succeeded? ==> ExactOpenRelease(db', id, i)
  {
    match o {
      case Died =>
      case RollbackUnknown =>
        MarkUnknownNeverRewrites(w, id, i, c.version, Code.RollbackUnknown, false, env.later, env.mark);
      case RollbackVerified =>
        FailGuardedKeeps(w, id, ROLLBACK_VERIFIED, env);
      case Refused =>
        FailKeeps(w, id, RUNTIME_FAILURE, env.later, env.failure);
      case Unconfirmed =>
        MarkUnknownNeverRewrites(w, id, i, c.version, RuntimeUnknown, true, env.later, env.mark);
      case Applied =>
        MarkUnknownNeverRewrites(w, id, i, c.version, RuntimeUnknown, false, env.later, env.mark);
        if Verified(env.verdict) {
          FinalizedIsExact(w, id, Evidence(i, c.version, env.verdict.evidenceVersion), env);
        }
    }
  }

  lemma ProjectSucceedsOpen(w: World, id: JobId, i: Identity, env: Env)
    requires Mine(w.db, id) && Open(w.db, id)
    requires ValidPayload(w.db.jobs[id].payload) && w.db.jobs[id].payload.identity == i
    ensures var db' := Project(w, id, i, env).world.db;
            id in db'.jobs && db'.jobs[id].status.Succeeded? ==> ExactOpenRelease(db', id, i)
  {
    if env.prepare.Prepared? && env.prepare.revision == i.revision {
      var p := Forwarder.Apply(w.runtime, env.prepare.candidate, env.script);
      ProjectedSucceedsOpen(World(w.db, p.runtime, w.applied + [id]), id, i, env.prepare.candidate, p.outcome, env);
    } else {
      FailKeeps(w, id, STALE_SNAPSHOT, env.later, env.failure);
    }
  }

  /** A job that succeeds in a run is the run's own, and its release blocker is open by then. */
  lemma NewSuccessIsGuarded(w: World, env: Env, id: JobId)
    requires WorldInv(w) && NewlySucceeded(w.db, Body(w, env).world.db, id)
    ensures var s := Body(w, env);
            && s.metadata.Some? && s.metadata.value.source == id
            && BlockerKey(LockRelease, id) in s.world.db.blockers
            && !s.world.db.blockers[BlockerKey(LockRelease, id)].status.Succeeded?
  {
    hide Project, JobsInv, BlockersInv, LogOk;
    var first := FirstClaimable(w.db, env.now, 0);
    var c := Claimed(w.db, first.value, env.now);
    ClaimKeeps(w.db, first.value, env.now);
    if env.claim.Acked? && !Blocked(c, first.value) {
      UnblockedBodyKeeps(w, env, first.value);
      assert first.value == id;
      if ValidPayload(c.jobs[id].payload) {
        ProjectSucceedsOpen(w.(db := c), id, c.jobs[id].payload.identity, env);
      }
    } else {
      HeldBody(w, env, first.value);
    }
  }

  /** The success of a job and its open release blocker are one commit: as long as the release was
      not confirmed, whatever stopped the run, all writers stay blocked for good. */
  lemma UnconfirmedReleaseBlocksWriters(w: World, env: Env, id: JobId, steps: seq<Step>)
    requires WorldInv(w) && NewlySucceeded(w.db, Reconcile(w, env).0.db, id)
    requires !ConfirmedRelease(Body(w, env), id, env.release)
    ensures var w' := Reconcile(w, env).0;
            && Frozen(w'.db)
            && Exec(w', steps).applied == w'.applied && Exec(w', steps).runtime == w'.runtime
  {
    BodyKeeps(w, env);
    RunKeeps(w, env);
    var s := Body(w, env);
    UnlockKeeps(s, env.release);
    NewSuccessIsGuarded(w, env, id);
    UnlockShape(s, env.release);
    var w' := Reconcile(w, env).0;
    var key := BlockerKey(LockRelease, id);
    assert key in w'.db.blockers && !w'.db.blockers[key].status.Succeeded?;
    FreezeIsForever(w', steps);
  }

  // ------------------------------------------------- known runtime on retry

  predicate Verified(v: Verdict) {
    v.Verdict? && v.verified && ValidEvidenceVersion(v.evidenceVersion)
  }

  /** The forwarder is untouched, restored and healthy, or runs the verified candidate whose
      finalization is known to be absent. */
  ghost predicate KnownRuntime(before: Forwarder.Runtime, after: Forwarder.Runtime, env: Env) {
    || after == before
    || after == Forwarder.Runtime(before.file, before.file)
    || (&& env.prepare.Prepared?
        && after == Forwarder.Runtime(env.prepare.candidate.document, env.prepare.candidate.document)
        && Verified(env.verdict)
        && (env.ensureRaises || !env.finalize.Lands()))
  }

  lemma FinalizeFailsOnlyIfAbsent(w: World, id: JobId, e: Evidence, env: Env)
    requires Mine(w.db, id) && Open(w.db, id)
    requires ValidPayload(w.db.jobs[id].payload) && w.db.jobs[id].payload.identity == e.identity
    requires ValidEvidenceVersion(e.verification)
    ensures var db' := Finalize(w, id, e, env).world.db;
            id in db'.jobs && db'.jobs[id].status.Failed? ==> env.ensureRaises || !env.finalize.Lands()
  {
    FinalizedKeeps(w.db, id, e);
    ClassificationIsExact(w, id, e, env);
  }

  lemma MarkUnknownNeverFails(
    w: World, id: JobId, i: Identity, fingerprint: string, d: Code, persist: bool, now: int, m: Mark
  )
    requires id in w.db.jobs && !w.db.jobs[id].status.Failed?
    ensures var w' := MarkUnknown(w, id, i, fingerprint, d, persist, now, m).world;
            w'.runtime == w.runtime && id in w'.db.jobs && !w'.db.jobs[id].status.Failed?
  {
  }

  /** Which endings of a projection leave the job FAILED. */
  lemma ProjectedFails(w: World, id: JobId, i: Identity, c: Forwarder.Candidate, o: Forwarder.Outcome, env: Env)
    requires Mine(w.db, id) && Open(w.db, id)
    requires ValidPayload(w.db.jobs[id].payload) && w.db.jobs[id].payload.identity == i
    ensures var w' := Projected(w, id, i, c, o, env).world;
            && w'.runtime == w.runtime
            && (id in w'.db.jobs && w'.db.jobs[id].status.Failed? ==>
                  || o.RollbackVerified? || o.Refused?
                  || (o.Applied? && Verified(env.verdict) && (env.ensureRaises || !env.finalize.Lands())))
  {
    hide JobsInv, BlockersInv, MarkUnknown, Finalize, Fail, FailGuarded;
    ProjectedKeeps(w, id, i, c, o, env);
    MarkUnknownNeverFails(w, id, i, c.version, Code.RollbackUnknown, false, env.later, env.mark);
    MarkUnknownNeverFails(w, id, i, c.version, RuntimeUnknown, false, env.later, env.mark);
    MarkUnknownNeverFails(w, id, i, c.version, RuntimeUnknown, true, env.later, env.mark);
    if Verified(env.verdict) {
      FinalizeFailsOnlyIfAbsent(w, id, Evidence(i, c.version, env.verdict.evidenceVersion), env);
    }
  }

  lemma ProjectKnowsTheRuntime(w: World, id: JobId, i: Identity, env: Env)
    requires Mine(w.db, id) && Open(w.db, id)
    requires ValidPayload(w.db.jobs[id].payload) && w.db.jobs[id].payload.identity == i
    ensures var s := Project(w, id, i, env);
            id in s.world.db.jobs && s.world.db.jobs[id].status.Failed? ==>
              KnownRuntime(w.runtime, s.world.runtime, env)
  {
    hide JobsInv, BlockersInv, Projected, Forwarder.Apply;
    if env.prepare.Prepared? && env.prepare.revision == i.revision {
      var c := env.prepare.candidate;
      var p := Forwarder.Apply(w.runtime, c, env.script);
      Forwarder.OutcomeTellsRuntime(w.runtime, c, env.script);
      ProjectedFails(World(w.db, p.runtime, w.applied + [id]), id, i, c, p.outcome, env);
    }
  }

  /** Known runtime on retry. Whenever a run leaves its job FAILED, so that a later run will retry
      it, the state of the forwarder is known. */
  lemma RetryKnowsTheRuntime(w: World, env: Env)
    requires WorldInv(w) && FirstClaimable(w.db, env.now, 0).Some?
    ensures var id := FirstClaimable(w.db, env.now, 0).value;
            var w' := Reconcile(w, env).0;
            id in w'.db.jobs && w'.db.jobs[id].status.Failed? ==> KnownRuntime(w.runtime, w'.runtime, env)
  {
    BodyKeeps(w, env);
    UnlockKeeps(Body(w, env), env.release);
    var id := FirstClaimable(w.db, env.now, 0).value;
    var c := Claimed(w.db, id, env.now);
    ClaimKeeps(w.db, id, env.now);
    if env.claim.Acked? && !Blocked(c, id) && ValidPayload(c.jobs[id].payload) {
      ProjectKnowsTheRuntime(w.(db := c), id, c.jobs[id].payload.identity, env);
    }
  }

  // ---------------------------------------------------------------- progress

  /** Nothing goes wrong: every commit is acknowledged, every call returns, the verifier agrees. */
  predicate Clean(env: Env, i: Identity) {
    && env.claim.Acked? && env.prepare.Prepared? && env.prepare.revision == i.revision
    && env.script.Forwarder? && env.script.preflight && env.script.install.Returns? && env.script.reload.Returns?
    && env.script.health.Healthy? && Verified(env.verdict) && !env.ensureRaises && env.finalize.Acked?
    && !env.release.ensureRaises && env.release.commit.Acked? && env.release.unlocked && env.release.resolve.Acked?
  }

  lemma CleanBody(w: World, env: Env, id: JobId)
    requires WorldInv(w) && FirstClaimable(w.db, env.now, 0) == Some(id) && !Blocked(w.db, id)
    requires ValidPayload(w.db.jobs[id].payload) && Clean(env, w.db.jobs[id].payload.identity)
    ensures var i := w.db.jobs[id].payload.identity;
            var c := Claimed(w.db, id, env.now);
            var e := Evidence(i, env.prepare.candidate.version, env.verdict.evidenceVersion);
            var s := Body(w, env);
            && FinalizedDb(c, id, e).Some? && s.world.db == FinalizedDb(c, id, e).value
            && s.metadata == Some(Metadata(id, Some(i))) && !s.unknown && s.signal == Returned(Some(MihomoRun.Result(id, true, true, false, None)))
            && s.world.runtime == Forwarder.Runtime(env.prepare.candidate.document, env.prepare.candidate.document)
  {
    hide JobsInv, BlockersInv, LogOk;
    var i := w.db.jobs[id].payload.identity;
    var c := Claimed(w.db, id, env.now);
    ClaimKeeps(w.db, id, env.now);
    FinalizedKeeps(c, id, Evidence(i, env.prepare.candidate.version, env.verdict.evidenceVersion));
    Forwarder.OutcomeTellsRuntime(w.runtime, env.prepare.candidate, env.script);
  }

  /** Leaving the lock cleanly resolves the release blocker and nothing else. */
  lemma CleanUnlock(s: Stage, r: Release)
    requires Inv(s.world.db) && MetadataOk(s) && s.metadata.Some? && !s.unknown && !s.signal.Crashed?
    requires !r.ensureRaises && r.commit.Acked? && r.unlocked && r.resolve.Acked?
    ensures var key := BlockerKey(LockRelease, s.metadata.value.source);
            var db' := Unlock(s, r).0.db;
            && key in db'.blockers && db'.blockers[key].status.Succeeded?
            && Unlock(s, r).1 == s.signal
            && db'.jobs == s.world.db.jobs && db'.blockers.Keys == s.world.db.blockers.Keys + {key}
            && (forall k | k in s.world.db.blockers && k != key :: db'.blockers[k] == s.world.db.blockers[k])
  {
  }

  /** Progress. A claimable job whose turn it is, in a run where nothing goes wrong, ends finalized
      over a forwarder that runs its candidate, and leaves nothing that would block the next job. */
  lemma CleanRunFinalizes(w: World, env: Env, id: JobId)
    requires WorldInv(w) && FirstClaimable(w.db, env.now, 0) == Some(id) && !Blocked(w.db, id)
    requires ValidPayload(w.db.jobs[id].payload) && Clean(env, w.db.jobs[id].payload.identity)
    ensures var w' := Reconcile(w, env).0;
            && Reconcile(w, env).1 == Returned(Some(MihomoRun.Result(id, true, true, false, None)))
            && id in w'.db.jobs && w'.db.jobs[id].status.Succeeded? && !UnresolvedBlocker(w'.db)
            && w'.runtime == Forwarder.Runtime(env.prepare.candidate.document, env.prepare.candidate.document)
  {
    hide JobsInv, BlockersInv, LogOk, Body, Unlock;
    BodyKeeps(w, env);
    CleanBody(w, env, id);
    var s := Body(w, env);
    CleanUnlock(s, env.release);
    UnlockKeeps(s, env.release);
    var e := Evidence(w.db.jobs[id].payload.identity, env.prepare.candidate.version, env.verdict.evidenceVersion);
    ClaimedOnly(Claimed(w.db, id, env.now), id, e);
    var db' := Reconcile(w, env).0.db;
    forall k | k in db'.blockers
      ensures db'.blockers[k].status.Succeeded?
    {
      if k != BlockerKey(LockRelease, id) {
        assert k in w.db.blockers && db'.blockers[k] == w.db.blockers[k];
      }
    }
  }

  /** Finalization touches one row and one blocker. */
  lemma ClaimedOnly(db: Db, id: JobId, e: Evidence)
    requires id in db.jobs && FinalizedDb(db, id, e).Some?
    ensures var f := FinalizedDb(db, id, e).value;
            && id in f.jobs && f.jobs[id].status.Succeeded?
            && (forall k | k in f.blockers && k != BlockerKey(LockRelease, id) ::
                  k in db.blockers && f.blockers[k] == db.blockers[k])
  {
  }

  function EmptyQueue(runtime: Forwarder.Runtime): World {
    World(Db(map[], 0, map[]), runtime, [])
  }

  /** An empty queue is a legal start. */
  lemma EmptyQueueIsLegal(runtime: Forwarder.Runtime)
    ensures WorldInv(EmptyQueue(runtime))
  {
  }
}
