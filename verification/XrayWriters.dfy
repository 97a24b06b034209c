/** The three writers of the shared Xray file and of its baseline: the provider's `apply`, the
    baseline promotion and the deployment renderer (backend/app/providers/gateway/xray_file.py,
    xray_baseline.py, ops/gateway/promote_xray_baseline.py, ops/gateway/render_xray_routes.py). */
module XrayWriters {
  import opened RuntimeCalls
  import opened Wrappers

  /** A configuration file by content. `owned` says that it passes the repository-owned check, and
      only then it has a fingerprint; the fingerprint is injective. */
  datatype Config = Config(content: string, owned: bool)

  type Fingerprint = string

  function FingerprintOf(c: Config): Option<Fingerprint> {
    if c.owned then Some(c.content) else None
  }

  /** `XrayAppliedStateStore.load_state`. */
  datatype Record = Missing | Applied(sha: Fingerprint) | Degraded(previous: Option<Fingerprint>) | Unreadable

  datatype Shared = Shared(file: Option<Config>, process: Option<Config>, record: Record)

  /** When `ensure_current_matches_baseline` can accept: the file is what the repository applied
      last, or neither the file nor a baseline exists yet. */
  predicate MatchesBaseline(s: Shared) {
    match s.record
    case Missing => s.file.None?
    case Applied(sha) => s.file.Some? && FingerprintOf(s.file.value) == Some(sha)
    case Degraded(_) => false
    case Unreadable => false
  }

  /** `readable`: the probes of the file do not raise. */
  predicate GuardAccepts(s: Shared, readable: bool) {
    readable && MatchesBaseline(s)
  }

  datatype Test = Passes | Refuses | TestRaises

  datatype Observation = Observed(config: Config) | ObserveRaises

  datatype Env = Env(
    backup: bool,
    readable: bool,
    newUserRouted: bool,
    test: Test,
    install: Call,
    reload: Call,
    health: Health,
    observe: Observation,
    save: Call,
    rollback: Rollback<Option<Config>>,
    marker: Call)

  datatype Outcome =
    | Returned       // ApplyResult
    | Rejected       // raised before the first mutation
    | RolledBack     // raised after a verified rollback
    | Marked         // raised, baseline degraded
    | MarkerFailed   // raised, and the degraded marker was reported as not persisted
    | Died

  datatype Ended = Ended(shared: Shared, outcome: Outcome)

  function Installed(s: Shared, c: Config, call: Call): Shared {
    if call.TookEffect() then s.(file := Some(c)) else s
  }

  function Reloaded(s: Shared, call: Call): Shared {
    if call.TookEffect() then s.(process := s.file) else s
  }

  function Saved(s: Shared, c: Config, call: Call): Shared {
    if call.TookEffect() && c.owned then s.(record := Applied(c.content)) else s
  }

  /** `_fail_after_rollback_failure`. */
  function FailAfterRollback(s: Shared, marker: Call): Ended {
    var s' := if marker.TookEffect() then s.(record := Degraded(None)) else s;
    Ended(s', if marker.Dies? then Died else if marker.Fails? then MarkerFailed else Marked)
  }

  /** `_rollback`. */
  function RollBack(s: Shared, backup: Option<Config>, r: Rollback<Option<Config>>, marker: Call): Ended {
    match r.restore
    case CopyDies(left) => Ended(s.(file := left), Died)
    case CopyFails(left) => FailAfterRollback(s.(file := left), marker)
    case Copied =>
      var restored := s.(file := backup);
      var reloaded := Reloaded(restored, r.reload);
      if r.reload.Dies? || (r.reload.Returns? && r.health.HealthDies?) then Ended(reloaded, Died)
      else if r.reload.Fails? || !r.health.Healthy? then FailAfterRollback(reloaded, marker)
      else Ended(reloaded, RolledBack)
  }

  /** `XrayFileProvider.apply`. */
  function Apply(s: Shared, c: Config, env: Env): Ended {
    if !env.backup || !GuardAccepts(s, env.readable) || !c.owned || !env.newUserRouted || !env.test.Passes? then
      Ended(s, Rejected)
    else
      var installed := Installed(s, c, env.install);
      if env.install.Dies? then Ended(installed, Died)
      else if env.install.Fails? then RollBack(installed, s.file, env.rollback, env.marker)
      else
        var reloaded := Reloaded(installed, env.reload);
        if env.reload.Dies? || (env.reload.Returns? && env.health.HealthDies?) then Ended(reloaded, Died)
        else if env.reload.Fails? || env.health.NoAnswer? then RollBack(reloaded, s.file, env.rollback, env.marker)
        else if env.health.Healthy? && env.observe == Observed(c) then
          var saved := Saved(reloaded, c, env.save);
          if env.save.Dies? then Ended(saved, Died)
          else if env.save.Fails? then RollBack(saved, s.file, env.rollback, env.marker)
          else Ended(saved, Returned)
        else RollBack(reloaded, s.file, env.rollback, env.marker)
  }

  // ------------------------------------------------------- the other writers

  /** `promote_applied_baseline`. */
  function Promote(s: Shared, expected: Fingerprint, readable: bool, save: Call): Shared {
    if s.record.Unreadable? || s.record.Degraded? || !readable || s.file.None? then s
    else if FingerprintOf(s.file.value) != Some(expected) then s
    else Saved(s, s.file.value, save)
  }

  /** `write_rendered_config`: guarded, atomic, and without a baseline of its own. */
  function Render(s: Shared, rendered: Config, readable: bool, write: Call): Shared {
    if !GuardAccepts(s, readable) then s else Installed(s, rendered, write)
  }

  datatype Op =
    | ApplyOp(candidate: Config, env: Env)
    | PromoteOp(expected: Fingerprint, readable: bool, save: Call)
    | RenderOp(rendered: Config, readable: bool, write: Call)

  function Step(s: Shared, op: Op): Shared {
    match op
    case ApplyOp(c, env) => Apply(s, c, env).shared
    case PromoteOp(expected, readable, save) => Promote(s, expected, readable, save)
    case RenderOp(rendered, readable, write) => Render(s, rendered, readable, write)
  }

  function Exec(s: Shared, ops: seq<Op>): Shared
    decreases |ops|
  {
    if ops == [] then s else Exec(Step(s, ops[0]), ops[1..])
  }

  // ----------------------------------------------------------------- claims

  /** What each way of ending says about the file, the process and the baseline. */
  ghost predicate EndsAs(s: Shared, c: Config, e: Ended) {
    match e.outcome
    case Returned => e.shared == Shared(Some(c), Some(c), Applied(c.content)) && c.owned
    case Rejected => e.shared == s
    case RolledBack =>
      && e.shared.file == s.file && e.shared.process == s.file
      && (e.shared.record == s.record || e.shared.record == Applied(c.content))
    case Marked => e.shared.record.Degraded?
    case MarkerFailed => true
    case Died => true
  }

  /** Every apply that ends, ends in one of the documented ways; and an apply that changes anything
      at all found the file equal to its baseline. */
  lemma ApplyOutcomes(s: Shared, c: Config, env: Env)
    ensures EndsAs(s, c, Apply(s, c, env))
    ensures Apply(s, c, env).shared != s ==> MatchesBaseline(s)
    ensures Apply(s, c, env).outcome.Returned? ==> MatchesBaseline(Apply(s, c, env).shared)
  {
  }

  /** The two situations in which a writer may proceed: nothing was ever installed, or the file is the
      owned one that the repository recorded. */
  lemma BaselineExactly(s: Shared)
    ensures MatchesBaseline(s) <==>
            || (s.file.None? && s.record == Missing)
            || (s.file.Some? && s.file.value.owned && s.record == Applied(s.file.value.content))
  {
  }

  /** The apply gets as far as writing its baseline. */
  predicate SaveAttempted(c: Config, env: Env) {
    env.install.Returns? && env.reload.Returns? && env.health.Healthy? && env.observe == Observed(c)
  }

  /** Everything that is checked before the first mutation. */
  predicate Admitted(s: Shared, c: Config, env: Env) {
    env.backup && env.readable && MatchesBaseline(s) && c.owned && env.newUserRouted && env.test.Passes?
  }

  /** The activation raised somewhere, was not confirmed by health and observation, or could not be
      recorded. */
  predicate ActivationFails(c: Config, env: Env) {
    || env.install.Fails?
    || (env.install.Returns? && env.reload.Fails?)
    || (env.install.Returns? && env.reload.Returns? && (env.health.Unhealthy? || env.health.NoAnswer?))
    || (env.install.Returns? && env.reload.Returns? && env.health.Healthy? && env.observe != Observed(c))
    || (SaveAttempted(c, env) && env.save.Fails?)
  }

  predicate Restores(r: Rollback<Option<Config>>) {
    r.restore.Copied? && r.reload.Returns? && r.health.Healthy?
  }

  predicate RestoreFails(r: Rollback<Option<Config>>) {
    || r.restore.CopyFails?
    || (r.restore.Copied? && r.reload.Fails?)
    || (r.restore.Copied? && r.reload.Returns? && (r.health.Unhealthy? || r.health.NoAnswer?))
  }

  /** Every ending of an apply, by the state before it and the answers of its environment alone. */
  lemma EndingsExactly(s: Shared, c: Config, env: Env)
    ensures var o := Apply(s, c, env).outcome;
            var fails := Admitted(s, c, env) && ActivationFails(c, env);
            && (o.Rejected? <==> !Admitted(s, c, env))
            && (o.Returned? <==> Admitted(s, c, env) && SaveAttempted(c, env) && env.save.Returns?)
            && (o.RolledBack? <==> fails && Restores(env.rollback))
            && (o.Marked? <==> fails && RestoreFails(env.rollback) && env.marker.Returns?)
            && (o.MarkerFailed? <==> fails && RestoreFails(env.rollback) && env.marker.Fails?)
  {
    hide MatchesBaseline;
  }

  /** What a failed activation leaves in place of the file, and what it records. */
  lemma FailedActivationIsRolledBack(s: Shared, c: Config, env: Env)
    requires Admitted(s, c, env) && ActivationFails(c, env)
    ensures var after := Apply(s, c, env).shared;
            && after.file == (if env.rollback.restore.Copied? then s.file else env.rollback.restore.left)
            && (env.rollback.restore.Copied? && env.rollback.reload.TookEffect() ==> after.process == s.file)
            && after.record ==
                 if RestoreFails(env.rollback) && env.marker.TookEffect() then Degraded(None)
                 else if SaveAttempted(c, env) && env.save.TookEffect() then Applied(c.content)
                 else s.record
  {
    hide MatchesBaseline;
  }

  /** What a process that dies in the activation or in the write of the baseline leaves, call by call. */
  lemma DyingApplyLeaves(s: Shared, c: Config, env: Env)
    requires Admitted(s, c, env)
    ensures var e := Apply(s, c, env);
            && (env.install.Dies? ==> e == Ended(s.(file := if env.install.tookEffect then Some(c) else s.file), Died))
            && (env.install.Returns? && env.reload.Dies? ==>
                  e == Ended(s.(file := Some(c), process := if env.reload.tookEffect then Some(c) else s.process), Died))
            && (env.install.Returns? && env.reload.Returns? && env.health.HealthDies? ==>
                  e == Ended(s.(file := Some(c), process := Some(c)), Died))
            && (SaveAttempted(c, env) && env.save.Dies? ==>
                  e == Ended(Shared(Some(c), Some(c), if env.save.tookEffect then Applied(c.content) else s.record), Died))
  {
    hide MatchesBaseline;
  }

  /** After a verified rollback the next writer is accepted exactly when the failed write of the
      baseline did not take effect, or the candidate was the file that is back in place; otherwise the
      file looks drifted and every writer is refused. */
  lemma RollbackReopensUnlessBaselineLanded(s: Shared, c: Config, env: Env)
    requires Apply(s, c, env).outcome.RolledBack?
    ensures MatchesBaseline(Apply(s, c, env).shared) <==>
            !(SaveAttempted(c, env) && env.save.TookEffect()) || s.file == Some(c)
  {
  }

  /** An apply whose baseline write took effect and failed, and whose rollback succeeded: nothing can
      be applied or rendered any more until a promotion. */
  lemma RollbackCanLeaveDrift(s: Shared, c: Config)
    requires MatchesBaseline(s) && c.owned && s.file != Some(c)
    ensures exists env: Env ::
              Apply(s, c, env).outcome.RolledBack? && !MatchesBaseline(Apply(s, c, env).shared)
  {
    var env := Env(true, true, true, Passes, Returns, Returns, Healthy, Observed(c), Fails(true),
                   Rollback(Copied, Returns, Healthy), Returns);
    assert Apply(s, c, env).outcome.RolledBack?;
    RollbackReopensUnlessBaselineLanded(s, c, env);
  }

  /** Degraded is absorbing: no sequence of the three writers changes anything any more. */
  lemma {:induction false} DegradedIsAbsorbing(s: Shared, ops: seq<Op>)
    requires s.record.Degraded?
    ensures Exec(s, ops) == s
    decreases |ops|
  {
    if ops != [] {
      assert Step(s, ops[0]) == s;
      DegradedIsAbsorbing(s, ops[1..]);
    }
  }

  /** The file is replaced only by an apply or a render that found it at its baseline, or by the
      rollback of such an apply. Once it has drifted, only a promotion can end the drift. */
  lemma {:induction false} DriftEndsOnlyByPromotion(s: Shared, ops: seq<Op>)
    requires !MatchesBaseline(s)
    requires forall k | 0 <= k < |ops| :: !ops[k].PromoteOp?
    ensures Exec(s, ops) == s
    decreases |ops|
  {
    if ops != [] {
      assert Step(s, ops[0]) == s;
      DriftEndsOnlyByPromotion(s, ops[1..]);
    }
  }

  /** A promotion certifies the very file that is in place, or changes nothing. */
  lemma PromotionCertifiesTheFile(s: Shared, expected: Fingerprint, readable: bool, save: Call)
    ensures var s' := Promote(s, expected, readable, save);
            && s'.file == s.file && s'.process == s.process
            && (s'.record != s.record ==> MatchesBaseline(s') && s'.record == Applied(expected))
  {
  }

  /** A promotion records the digest exactly when the file in place is owned and has it, no record is
      degraded or unreadable, and the write took effect. */
  lemma PromotesExactly(s: Shared, expected: Fingerprint, readable: bool, save: Call)
    ensures Promote(s, expected, readable, save) ==
            if readable && (s.record.Missing? || s.record.Applied?)
               && s.file.Some? && s.file.value.owned && s.file.value.content == expected && save.TookEffect()
            then s.(record := Applied(expected)) else s
  {
  }

  /** A render replaces the file exactly over a file at its baseline, and nothing else of the gateway. */
  lemma RendersExactly(s: Shared, rendered: Config, readable: bool, write: Call)
    ensures Render(s, rendered, readable, write) ==
            if readable && MatchesBaseline(s) && write.TookEffect() then s.(file := Some(rendered)) else s
  {
  }

  class XrayFileProvider {
    var file: Option<Config>
    var process: Option<Config>
    var record: Record

    constructor (s: Shared)
      ensures State() == s
    {
      file, process, record := s.file, s.process, s.record;
    }

    function State(): Shared
      reads this
    {
      Shared(file, process, record)
    }

    /** `ensure_current_matches_baseline`; false is the exception. */
    method EnsureCurrentMatchesBaseline(readable: bool) returns (accepted: bool)
      ensures accepted <==> GuardAccepts(State(), readable)
    {
      match record {
        case Unreadable => accepted := false;
        case Missing => accepted := readable && file.None?;
        case Degraded(_) => accepted := false;
        case Applied(sha) =>
          accepted := readable && file.Some? && FingerprintOf(file.value) == Some(sha);
      }
    }

    method MarkDegraded(marker: Call) returns (outcome: Outcome)
      modifies this
      ensures Ended(State(), outcome) == FailAfterRollback(old(State()), marker)
    {
      if marker.TookEffect() {
        record := Degraded(None);
      }
      outcome := if marker.Dies? then Died else if marker.Fails? then MarkerFailed else Marked;
    }

    method RollbackTo(backup: Option<Config>, r: Rollback<Option<Config>>, marker: Call) returns (outcome: Outcome)
      modifies this
      ensures Ended(State(), outcome) == RollBack(old(State()), backup, r, marker)
    {
      match r.restore {
        case CopyDies(left) =>
          file := left;
          return Died;
        case CopyFails(left) =>
          file := left;
          outcome := MarkDegraded(marker);
          return;
        case Copied =>
          file := backup;
      }
      if r.reload.TookEffect() {
        process := file;
      }
      if r.reload.Dies? || (r.reload.Returns? && r.health.HealthDies?) {
        return Died;
      }
      if r.reload.Fails? || !r.health.Healthy? {
        outcome := MarkDegraded(marker);
        return;
      }
      return RolledBack;
    }

    method ApplyCandidate(c: Config, env: Env) returns (outcome: Outcome)
      modifies this
      ensures Ended(State(), outcome) == Apply(old(State()), c, env)
    {
      if !env.backup {
        return Rejected;
      }
      var backup := file;
      var accepted := EnsureCurrentMatchesBaseline(env.readable);
      if !accepted || !c.owned || !env.newUserRouted || !env.test.Passes? {
        return Rejected;
      }
      if env.install.TookEffect() {
        file := Some(c);
      }
      if env.install.Dies? {
        return Died;
      }
      if env.install.Returns? {
        if env.reload.TookEffect() {
          process := file;
        }
        if env.reload.Dies? || (env.reload.Returns? && env.health.HealthDies?) {
          return Died;
        }
        if env.reload.Returns? && env.health.Healthy? && env.observe == Observed(c) {
          if env.save.TookEffect() {
            record := Applied(c.content);
          }
          if env.save.Dies? {
            return Died;
          }
          if env.save.Returns? {
            return Returned;
          }
        }
      }
      outcome := RollbackTo(backup, env.rollback, env.marker);
    }
  }
}
