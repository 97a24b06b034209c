/** The durable Mihomo reconciliation queue: intent rows, blocker rows, and the single-transaction
    transitions on them (backend/app/infra/mihomo_reconciliation.py, mihomo_blocker.py). */
module MihomoQueue {
  import opened Durable
  import opened Limits
  import opened Strings
  import opened Wrappers

  type JobId = nat

  datatype Status = Pending | Running | Succeeded | Failed

  /** `last_error_code`. The three diagnostics mark a row whose outcome nobody knows. */
  datatype Code = RollbackUnknown | RuntimeUnknown | FinalizationUnknown | Other(text: string)

  predicate IsUnknown(error: Option<Code>) {
    error.Some? && !error.value.Other?
  }

  datatype Identity = Identity(operationId: string, operationKind: string, revision: int)

  datatype Evidence = Evidence(identity: Identity, fingerprint: string, verification: string)

  /** `payload_json`: text that is not a JSON object, or the identifiers of one intent. */
  datatype Payload = Malformed | Intent(identity: Identity, evidence: Option<Evidence>)

  function EvidenceOf(p: Payload): Option<Evidence> {
    if p.Intent? then p.evidence else None
  }

  const MAX_OPERATION_ID_LENGTH := 143
  const OPERATION_KINDS := {"FULL_PROJECTION", "RECONCILE", "CREATE", "UPDATE", "DELETE"}

  predicate IsAlphanumeric(c: char) {
    'A' <= c <= 'Z' || 'a' <= c <= 'z' || '0' <= c <= '9'
  }

  predicate IsSafe(s: string, maxLength: nat) {
    && 1 <= |s| <= maxLength
    && IsAlphanumeric(s[0])
    && forall i | 0 <= i < |s| :: IsAlphanumeric(s[i]) || s[i] in {'.', '_', ':', '-'}
  }

  predicate ValidIdentity(i: Identity) {
    IsSafe(i.operationId, MAX_OPERATION_ID_LENGTH) && i.operationKind in OPERATION_KINDS && i.revision > 0
  }

  /** What an operation may be called, of which kind it is, and that its snapshot has a revision. */
  lemma IdentityExactly(i: Identity)
    ensures ValidIdentity(i) <==>
            && 0 < |i.operationId| < 144 && IsAlphanumeric(i.operationId[0])
            && (forall c | c in i.operationId :: IsAlphanumeric(c) || c == '.' || c == '_' || c == ':' || c == '-')
            && (i.operationKind == "FULL_PROJECTION" || i.operationKind == "RECONCILE" || i.operationKind == "CREATE"
                || i.operationKind == "UPDATE" || i.operationKind == "DELETE")
            && i.revision >= 1
  {
    if forall c | c in i.operationId :: IsAlphanumeric(c) || c == '.' || c == '_' || c == ':' || c == '-' {
      forall k | 0 <= k < |i.operationId|
        ensures IsAlphanumeric(i.operationId[k]) || i.operationId[k] in {'.', '_', ':', '-'}
      {
        assert i.operationId[k] in i.operationId;
      }
    }
  }

  predicate ValidEvidenceVersion(s: string) {
    IsSafe(s, 64)
  }

  predicate ValidPayload(p: Payload) {
    p.Intent? && ValidIdentity(p.identity)
  }

  datatype Job = Job(
    status: Status,
    attempts: nat,
    maxAttempts: nat,
    availableAt: int,
    lockedAt: Option<int>,
    error: Option<Code>,
    payload: Payload)

  datatype BlockerKind = Finalization | LockRelease

  /** The identity behind the unique `dedupe_key` of a blocker row. */
  datatype BlockerKey = BlockerKey(kind: BlockerKind, source: JobId)

  function KindText(k: BlockerKind): string {
    if k.Finalization? then "FINALIZATION" else "LOCK_RELEASE"
  }

  /** `mihomo_blocker_dedupe_key`. */
  function DedupeKey(k: BlockerKey): string {
    "MIHOMO_BLOCKER:" + (KindText(k.kind) + ":" + Decimal(k.source))
  }

  /** The text of a blocker key names its kind and its job: two blockers never share a row. */
  lemma DedupeKeysAreDistinct(a: BlockerKey, b: BlockerKey)
    ensures DedupeKey(a) == DedupeKey(b) <==> a == b
  {
    if DedupeKey(a) == DedupeKey(b) {
      var n := |"MIHOMO_BLOCKER:"|;
      var x, y := KindText(a.kind) + ":" + Decimal(a.source), KindText(b.kind) + ":" + Decimal(b.source);
      assert x == DedupeKey(a)[n..] && y == DedupeKey(b)[n..];
      assert x[0] == KindText(a.kind)[0] && y[0] == KindText(b.kind)[0];
      assert KindText(a.kind) == KindText(b.kind);
      var m := |KindText(a.kind)| + 1;
      assert x[m..] == Decimal(a.source) && y[m..] == Decimal(b.source);
      DecimalInjective(a.source, b.source);
    }
  }

  /** The immutable reason a blocker was created for. */
  datatype Reason = ReleasePending | Diagnosed(code: Code)

  /** The later outcome, kept in `last_error_code`. */
  datatype Note = ReleaseUnknown | DurableStateUnknown

  datatype Origin = Origin(operationId: Option<string>, revision: Option<int>, reason: Reason)

  datatype Blocker = Blocker(status: Status, origin: Origin, note: Option<Note>)

  /** `nextId` is the next key MySQL would assign to a job row. */
  datatype Db = Db(jobs: map<JobId, Job>, nextId: JobId, blockers: map<BlockerKey, Blocker>)

  // ---------------------------------------------------------------- enqueue

  const RETRY_LIMIT := 5

  function NewJob(i: Identity, now: int): Job {
    Job(Pending, 0, RETRY_LIMIT, now, None, None, Intent(i, None))
  }

  function Enqueued(db: Db, i: Identity, now: int): Db {
    db.(jobs := db.jobs[db.nextId := NewJob(i, now)], nextId := db.nextId + 1)
  }

  // ------------------------------------------------------------------ claim

  const STALE_AFTER := 900

  /** The `where` clause of `_claim`. */
  predicate Claimable(j: Job, now: int) {
    && (|| j.status in {Pending, Failed}
        || (&& j.status.Running?
            && j.lockedAt.Some?
            && j.lockedAt.value < now - STALE_AFTER
            && !IsUnknown(j.error)))
    && j.availableAt <= now
    && j.attempts < j.maxAttempts
  }

  /** `order_by(Job.id)`: the claimable row with the least id. */
  function FirstClaimable(db: Db, now: int, from: JobId): (r: Option<JobId>)
    ensures r.Some? ==> from <= r.value < db.nextId && r.value in db.jobs && Claimable(db.jobs[r.value], now)
    ensures forall id | id in db.jobs && from <= id < (if r.Some? then r.value else db.nextId) ::
              !Claimable(db.jobs[id], now)
    decreases db.nextId - from
  {
    if from >= db.nextId then None
    else if from in db.jobs && Claimable(db.jobs[from], now) then Some(from)
    else FirstClaimable(db, now, from + 1)
  }

  function Claimed(db: Db, id: JobId, now: int): Db
    requires id in db.jobs
  {
    var j := db.jobs[id];
    db.(jobs := db.jobs[id := j.(status := Running, lockedAt := Some(now), attempts := j.attempts + 1)])
  }

  /** `_reset_blocked_claim`. */
  function Unclaimed(db: Db, id: JobId): Db
    requires id in db.jobs
  {
    var j := db.jobs[id];
    if !j.status.Running? then db
    else
      db.(jobs := db.jobs[id := j.(status := Pending, lockedAt := None,
                                   attempts := if j.attempts == 0 then 0 else j.attempts - 1)])
  }

  predicate UnresolvedBlocker(db: Db) {
    exists k | k in db.blockers :: !db.blockers[k].status.Succeeded?
  }

  predicate UnresolvedBelow(db: Db, id: JobId) {
    exists i | i in db.jobs :: i < id && !db.jobs[i].status.Succeeded?
  }

  /** `assert_no_unresolved_mihomo_mutation` with the lock held and an owning job. */
  predicate Blocked(db: Db, id: JobId) {
    UnresolvedBlocker(db) || UnresolvedBelow(db, id)
  }

  // --------------------------------------------------------------- blockers

  predicate ValidOrigin(o: Origin) {
    && (o.operationId.Some? ==> IsSafe(o.operationId.value, MAX_OPERATION_ID_LENGTH))
    && (o.revision.Some? ==> o.revision.value > 0)
  }

  /** `ensure_mihomo_blocker`: create, reuse, or reopen; None is the exception it raises. */
  function EnsureBlocker(db: Db, key: BlockerKey, origin: Origin): Option<Db> {
    if !ValidOrigin(origin) then None
    else if key !in db.blockers then Some(db.(blockers := db.blockers[key := Blocker(Pending, origin, None)]))
    else if db.blockers[key].origin != origin then None
    else if db.blockers[key].status.Succeeded? then
      Some(db.(blockers := db.blockers[key := Blocker(Pending, origin, None)]))
    else Some(db)
  }

  /** A blocker is refused exactly for an origin that no enqueued operation has, or for a row of another
      origin; otherwise it is open afterwards, keeps its note only while it was open before, and no other
      blocker changes. */
  lemma EnsureBlockerExactly(db: Db, key: BlockerKey, origin: Origin)
    ensures EnsureBlocker(db, key, origin).None? <==>
              || (origin.operationId.Some? && !IsSafe(origin.operationId.value, 143))
              || (origin.revision.Some? && origin.revision.value <= 0)
              || (key in db.blockers && db.blockers[key].origin != origin)
    ensures EnsureBlocker(db, key, origin).Some? ==>
              EnsureBlocker(db, key, origin).value ==
              if key in db.blockers && db.blockers[key].status != Succeeded then db
              else db.(blockers := db.blockers[key := Blocker(Pending, origin, None)])
  {
  }

  function Annotated(db: Db, key: BlockerKey, note: Note): Db
    requires key in db.blockers
  {
    db.(blockers := db.blockers[key := db.blockers[key].(note := Some(note))])
  }

  /** `resolve_mihomo_blocker`. */
  function Resolved(db: Db, key: BlockerKey): Db
    requires key in db.blockers
  {
    db.(blockers := db.blockers[key := db.blockers[key].(status := Succeeded, note := None)])
  }

  function OpenRelease(db: Db, id: JobId, identity: Option<Identity>): Option<Db> {
    var origin := match identity
      case None => Origin(None, None, ReleasePending)
      case Some(i) => Origin(Some(i.operationId), Some(i.revision), ReleasePending);
    EnsureBlocker(db, BlockerKey(LockRelease, id), origin)
  }

  function OpenFinalization(db: Db, id: JobId, identity: Option<Identity>, diagnostic: Code): Option<Db> {
    var origin := match identity
      case None => Origin(None, None, Diagnosed(diagnostic))
      case Some(i) => Origin(Some(i.operationId), Some(i.revision), Diagnosed(diagnostic));
    EnsureBlocker(db, BlockerKey(Finalization, id), origin)
  }

  // --------------------------------------------------- finishing a claimed row

  /** The row `_failure` writes. */
  function FailedRow(db: Db, id: JobId, code: Code, now: int): Db
    requires id in db.jobs
  {
    var j := db.jobs[id];
    db.(jobs := db.jobs[id := j.(status := Failed, lockedAt := None, error := Some(code),
                                 availableAt := now + 60 * BackoffMinutes(j.attempts))])
  }

  /** The row `_mark_unknown_inner` writes. */
  function MarkedRow(db: Db, id: JobId, diagnostic: Code, now: int): Db
    requires id in db.jobs
  {
    var j := db.jobs[id];
    db.(jobs := db.jobs[id := j.(status := Running, lockedAt := Some(now), error := Some(diagnostic))])
  }

  /** The row of a finalized job, before its release blocker is opened. */
  function SucceededRow(db: Db, id: JobId, e: Evidence): Db
    requires id in db.jobs
  {
    var j := db.jobs[id];
    db.(jobs := db.jobs[id := j.(status := Succeeded, lockedAt := None, error := None,
                                 payload := Intent(e.identity, Some(e)))])
  }

  /** A row that failed at `now` is claimed again from then on when its delay is over, while attempts
      remain, and never before. */
  lemma FailedIsRetriedFrom(db: Db, id: JobId, code: Code, now: int, at: int)
    requires id in db.jobs
    ensures var a := db.jobs[id].attempts;
            Claimable(FailedRow(db, id, code, now).jobs[id], at) <==>
            at >= now + RetryDelay(a) && a < db.jobs[id].maxAttempts
    ensures var j := db.jobs[id];
            FailedRow(db, id, code, now) ==
            db.(jobs := db.jobs[id := Job(Failed, j.attempts, j.maxAttempts, now + RetryDelay(j.attempts), None, Some(code), j.payload)])
  {
    BackoffIsDoubledAndCapped(db.jobs[id].attempts);
  }

  /** A claim is taken over from a dead worker after more than fifteen minutes, while attempts remain and
      nothing says that its outcome is unknown. */
  lemma ClaimIsTakenOverAfter(db: Db, id: JobId, now: int, at: int)
    requires id in db.jobs && db.jobs[id].availableAt <= now <= at
    ensures Claimable(Claimed(db, id, now).jobs[id], at) <==>
            at > now + 15 * 60 && db.jobs[id].attempts + 1 < db.jobs[id].maxAttempts && !IsUnknown(db.jobs[id].error)
  {
  }

  // --------------------------------------------------------- classification

  datatype CommitOutcome = LANDED | ABSENT | UNKNOWN

  /** Success together with the evidence and the open release blocker of this very run. */
  predicate ExactSuccess(db: Db, id: JobId, i: Identity, fingerprint: string) {
    && id in db.jobs
    && db.jobs[id].status.Succeeded?
    && db.jobs[id].payload.Intent?
    && db.jobs[id].payload.identity == i
    && db.jobs[id].payload.evidence.Some?
    && var e := db.jobs[id].payload.evidence.value;
    && e.identity == i
    && e.fingerprint == fingerprint
    && ValidEvidenceVersion(e.verification)
    && ExactOpenRelease(db, id, i)
  }

  /** `_has_exact_unresolved_release_blocker`. */
  predicate ExactOpenRelease(db: Db, id: JobId, i: Identity) {
    var key := BlockerKey(LockRelease, id);
    && key in db.blockers
    && !db.blockers[key].status.Succeeded?
    && db.blockers[key].origin == Origin(Some(i.operationId), Some(i.revision), ReleasePending)
  }

  /** The row is still the claim of this run: running, no evidence, no diagnostic. */
  predicate ExactClaim(db: Db, id: JobId, i: Identity) {
    && id in db.jobs
    && db.jobs[id].payload.Intent?
    && db.jobs[id].payload.identity == i
    && db.jobs[id].status.Running?
    && db.jobs[id].payload.evidence.None?
    && !IsUnknown(db.jobs[id].error)
  }

  /** `classify_finalization_outcome`, read by an independent observer that may be unavailable. */
  function Classify(db: Db, id: JobId, i: Identity, fingerprint: string, observerWorks: bool): CommitOutcome {
    if !observerWorks then UNKNOWN
    else if ExactSuccess(db, id, i, fingerprint) then LANDED
    else if ExactClaim(db, id, i) then ABSENT
    else UNKNOWN
  }
}
