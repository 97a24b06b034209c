/** What enqueues and runs lead to from the empty queue: operations own one row each, and the two
    promises that fail do so in histories that happen. */
module MihomoHistories {
  import opened Durable
  import opened MihomoQueue
  import opened MihomoRun
  import opened MihomoInvariants
  import opened MihomoTheorems
  import opened RuntimeCalls
  import opened Wrappers
  import Forwarder = MihomoForwarder

  // -------------------------------------------------- one row per operation

  /** Two rows of one operation are the same row. */
  ghost predicate UniqueOperations(db: Db) {
    forall i, j, operation |
      i in db.jobs && j in db.jobs && OwnedBy(db.jobs[i], operation) && OwnedBy(db.jobs[j], operation) :: i == j
  }

  /** Runs add no rows. */
  lemma RunAddsNothing(w: World, env: Env)
    requires WorldInv(w)
    ensures Reconcile(w, env).0.db.jobs.Keys == w.db.jobs.Keys
  {
    hide JobsInv, BlockersInv, LogOk, MetadataOk, Unlock, Body;
    BodyKeeps(w, env);
    UnlockKeeps(Body(w, env), env.release);
    BodyAddsNothing(w, env);
  }

  lemma BodyAddsNothing(w: World, env: Env)
    requires WorldInv(w)
    ensures Body(w, env).world.db.jobs.Keys == w.db.jobs.Keys
  {
    hide JobsInv, BlockersInv, LogOk, Project, PersistUnknownBlocker, Blocked;
    var first := FirstClaimable(w.db, env.now, 0);
    if first.Some? {
      var id := first.value;
      ClaimKeeps(w.db, id, env.now);
      if env.claim.Acked? && !Blocked(Claimed(w.db, id, env.now), id) {
        UnblockedBodyKeeps(w, env, id);
      }
    }
  }

  lemma SameRowsKeepUnique(db: Db, db': Db)
    requires UniqueOperations(db) && Evolves(db, db') && db'.jobs.Keys == db.jobs.Keys
    ensures UniqueOperations(db')
  {
    forall i, j, operation | i in db'.jobs && j in db'.jobs && OwnedBy(db'.jobs[i], operation) && OwnedBy(db'.jobs[j], operation)
      ensures i == j
    {
      assert OwnedBy(db.jobs[i], operation) && OwnedBy(db.jobs[j], operation);
    }
  }

  lemma StepKeepsUnique(w: World, s: Step)
    requires WorldInv(w) && UniqueOperations(w.db)
    ensures WorldInv(Next(w, s)) && UniqueOperations(Next(w, s).db)
  {
    hide WorldInv, Reconcile, EnqueueStep, UniqueOperations, Evolves;
    match s {
      case Enqueue(i, now, commit) =>
        EnqueueKeeps(w, i, now, commit);
        EnqueueKeepsUnique(w.db, i, now, commit);
      case Work(env) =>
        RunKeeps(w, env);
        RunAddsNothing(w, env);
        SameRowsKeepUnique(w.db, Reconcile(w, env).0.db);
    }
  }

  lemma EnqueueKeepsUnique(db: Db, i: Identity, now: int, commit: Commit)
    requires UniqueOperations(db)
    ensures UniqueOperations(EnqueueStep(db, i, now, commit))
  {
  }

  /** Over every sequence of enqueues and runs, no operation id comes to own two rows. */
  lemma {:induction false} OneRowPerOperation(w: World, steps: seq<Step>)
    requires WorldInv(w) && UniqueOperations(w.db)
    ensures UniqueOperations(Exec(w, steps).db)
    decreases |steps|
  {
    hide WorldInv, UniqueOperations, Next;
    if steps != [] {
      StepKeepsUnique(w, steps[0]);
      OneRowPerOperation(Next(w, steps[0]), steps[1..]);
    }
  }

  // ----------------------------------------------------------- two failures

  const FIRST := Identity("a", "CREATE", 1)
  const SECOND := Identity("b", "CREATE", 1)

  lemma TextsAreSafe()
    ensures ValidIdentity(FIRST) && ValidIdentity(SECOND)
  {
  }

  /** Two operations are enqueued, and the first worker dies with the first of them claimed. */
  function FirstWorkerDies(env: Env): seq<Step> {
    [Enqueue(FIRST, env.now, Acked), Enqueue(SECOND, env.now, Acked), Work(env.(claim := CrashLanded))]
  }

  /** Then the next worker claims the second operation, finds it blocked by the first, and cannot give
      the claim back: an attempt is gone although nothing was tried. */
  lemma LostResetConsumesAnAttempt(runtime: Forwarder.Runtime, env: Env)
    requires env.claim.Acked? && !env.reset.Lands()
    ensures var w := Exec(EmptyQueue(runtime), FirstWorkerDies(env));
            var w' := Next(w, Work(env));
            && WorldInv(w) && FirstClaimable(w.db, env.now, 0) == Some(1) && Blocked(w.db, 1)
            && 1 in w'.db.jobs && w'.db.jobs[1].status.Running? && w'.applied == w.applied
            && w.db.jobs[1].attempts == 0 && w'.db.jobs[1].attempts == 1
  {
    hide Reconcile, WorldInv;
    var steps := FirstWorkerDies(env);
    EmptyQueueIsLegal(runtime);
    InOrderBoundedFinal(EmptyQueue(runtime), steps);
    var w := AfterFirstWorker(runtime, env);
    BlockedClaimConsumesNothing(w, env);
  }

  lemma AfterFirstWorker(runtime: Forwarder.Runtime, env: Env) returns (w: World)
    ensures w == Exec(EmptyQueue(runtime), FirstWorkerDies(env))
    ensures w.db.jobs == map[0 := NewJob(FIRST, env.now).(status := Running, lockedAt := Some(env.now), attempts := 1),
                             1 := NewJob(SECOND, env.now)]
    ensures FirstClaimable(w.db, env.now, 0) == Some(1) && Blocked(w.db, 1)
  {
    hide Reconcile;
    TextsAreSafe();
    var w2 := TwoEnqueued(runtime, env.now);
    var died := env.(claim := CrashLanded);
    assert FirstClaimable(w2.db, env.now, 0) == Some(0);
    HeldBody(w2, died, 0);
    w := Next(w2, Work(died));
    var steps := FirstWorkerDies(env);
    assert steps[1..][1..] == [Work(died)];
    assert Exec(w2, [Work(died)]) == w;
    assert !w.db.jobs[0].status.Succeeded?;
    assert FirstClaimable(w.db, env.now, 1) == Some(1);
  }

  lemma TwoEnqueued(runtime: Forwarder.Runtime, now: int) returns (w: World)
    ensures w == Next(Next(EmptyQueue(runtime), Enqueue(FIRST, now, Acked)), Enqueue(SECOND, now, Acked))
    ensures w == World(Db(map[0 := NewJob(FIRST, now), 1 := NewJob(SECOND, now)], 2, map[]), runtime, [])
  {
    TextsAreSafe();
    var w1 := Next(EmptyQueue(runtime), Enqueue(FIRST, now, Acked));
    assert w1.db == Db(map[0 := NewJob(FIRST, now)], 1, map[]);
    w := Next(w1, Enqueue(SECOND, now, Acked));
    assert !(exists id | id in w1.db.jobs :: OwnedBy(w1.db.jobs[id], "b"));
  }

  /** One operation whose run cannot restore the file it replaced, loses its diagnostic and cannot open
      its release blocker. */
  const UNRECORDED := Env(
    0, 0, Acked, Acked, Prepared(1, Forwarder.Candidate("v", "d")),
    Forwarder.Script.Forwarder(true, Returns, Fails(false), Healthy, Rollback(CopyFails("half"), Returns, Healthy)),
    VerifierRaises, false, Acked, true, Mark(true, false, false, LostAbsent), Acked, Acked,
    Release(true, Acked, true, Acked, Acked))

  /** It was uncertain, nothing says so, and once it is stale the next worker applies it again. */
  lemma UncertaintyCanLeaveNoTrace(runtime: Forwarder.Runtime)
    ensures var w := Exec(EmptyQueue(runtime), [Enqueue(FIRST, 0, Acked)]);
            var w' := Next(w, Work(UNRECORDED));
            && WorldInv(w) && Body(w, UNRECORDED).fate.Uncertain? && !Frozen(w'.db)
            && Next(w', Work(UNRECORDED.(now := STALE_AFTER + 1))).applied == w'.applied + [0]
  {
    hide Reconcile, Body, Frozen, WorldInv, EndsUncertain, MarkAttempted, Unclassified;
    var env := UNRECORDED;
    var w := OneEnqueued(runtime);
    EmptyQueueIsLegal(runtime);
    InOrderBoundedFinal(EmptyQueue(runtime), [Enqueue(FIRST, 0, Acked)]);
    var c := w.(db := Claimed(w.db, 0, 0));
    RollbackIsUnknown(w);
    assert c.db.jobs[0].payload == Intent(FIRST, None);
    UncertainBody(w, env, 0);
    UncertainRunFreezes(w, env, 0);
    UnrecordedUncertaintyIsRetried(w, env, 0, env.(now := STALE_AFTER + 1));
  }

  lemma OneEnqueued(runtime: Forwarder.Runtime) returns (w: World)
    ensures w == Exec(EmptyQueue(runtime), [Enqueue(FIRST, 0, Acked)])
    ensures w == World(Db(map[0 := NewJob(FIRST, 0)], 1, map[]), runtime, [])
    ensures FirstClaimable(w.db, 0, 0) == Some(0) && !Blocked(w.db, 0) && ValidPayload(w.db.jobs[0].payload)
  {
    TextsAreSafe();
    w := Next(EmptyQueue(runtime), Enqueue(FIRST, 0, Acked));
    assert Exec(w, []) == w;
  }

  lemma RollbackIsUnknown(w: World)
    requires w.db == Db(map[0 := NewJob(FIRST, 0)], 1, map[])
    ensures var c := w.(db := Claimed(w.db, 0, 0));
            EndsUncertain(c, 0, UNRECORDED) && !Unclassified(c, 0, UNRECORDED)
  {
  }
}
