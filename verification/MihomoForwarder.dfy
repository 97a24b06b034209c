/** The forwarder provider: install a finalized candidate, and restore the previous file when the
    activation cannot be confirmed (backend/app/providers/forwarder/mihomo.py). */
module MihomoForwarder {
  import opened RuntimeCalls

  /** A YAML document, by content. */
  type Document = string

  datatype Candidate = Candidate(version: string, document: Document)

  /** The configuration file, and the configuration the running process loaded last. */
  datatype Runtime = Runtime(file: Document, loaded: Document)

  /** The environment of one `apply`: every answer the runtime gives. `Foreign` is another
      implementation of the provider protocol that returns without confirming the projection. */
  datatype Script =
    | Forwarder(preflight: bool, install: Call, reload: Call, health: Health, rollback: Rollback<Document>)
    | Foreign(leaves: Runtime)

  datatype Outcome =
    | Applied           // ApplyResult(True, version)
    | Refused           // MihomoRuntimeError before the first mutation
    | RollbackVerified  // MihomoRollbackVerifiedError
    | RollbackUnknown   // MihomoRollbackUnknownError
    | Unconfirmed       // a result whose `applied` is not True
    | Died

  datatype Projection = Projection(runtime: Runtime, outcome: Outcome)

  function Installed(rt: Runtime, document: Document, call: Call): Runtime {
    if call.TookEffect() then rt.(file := document) else rt
  }

  function Reloaded(rt: Runtime, call: Call): Runtime {
    if call.TookEffect() then rt.(loaded := rt.file) else rt
  }

  function Restored(rt: Runtime, backup: Document, copy: Copy<Document>): Runtime {
    rt.(file := if copy.Copied? then backup else copy.left)
  }

  function RollBack(rt: Runtime, backup: Document, s: Rollback<Document>): Projection {
    var restored := Restored(rt, backup, s.restore);
    if s.restore.CopyDies? then Projection(restored, Died)
    else if s.restore.CopyFails? then Projection(restored, RollbackUnknown)
    else
      var reloaded := Reloaded(restored, s.reload);
      if s.reload.Dies? || (s.reload.Returns? && s.health.HealthDies?) then Projection(reloaded, Died)
      else if s.reload.Fails? || !s.health.Healthy? then Projection(reloaded, RollbackUnknown)
      else Projection(reloaded, RollbackVerified)
  }

  function Apply(rt: Runtime, candidate: Candidate, s: Script): Projection {
    match s
    case Foreign(leaves) => Projection(leaves, Unconfirmed)
    case Forwarder(preflight, install, reload, health, rollback) =>
      if !preflight then Projection(rt, Refused)
      else
        var installed := Installed(rt, candidate.document, install);
        if install.Dies? then Projection(installed, Died)
        else if install.Fails? then RollBack(installed, rt.file, rollback)
        else
          var reloaded := Reloaded(installed, reload);
          if reload.Dies? || (reload.Returns? && health.HealthDies?) then Projection(reloaded, Died)
          else if reload.Fails? || !health.Healthy? then RollBack(reloaded, rt.file, rollback)
          else Projection(reloaded, Applied)
  }

  /** What each outcome says about the runtime. `Unconfirmed`, `RollbackUnknown` and `Died` say
      nothing: these are the outcomes after which the reconciler must not retry. */
  lemma OutcomeTellsRuntime(rt: Runtime, candidate: Candidate, s: Script)
    ensures var p := Apply(rt, candidate, s);
            && (p.outcome.Applied? ==> p.runtime == Runtime(candidate.document, candidate.document))
            && (p.outcome.Refused? ==> p.runtime == rt)
            && (p.outcome.RollbackVerified? ==> p.runtime == Runtime(rt.file, rt.file))
  {
  }

  // --------------------------------------------------- outcomes, exactly

  /** A call of the activation raised, or its health answer is not healthy. */
  predicate ActivationFails(s: Script)
    requires s.Forwarder?
  {
    || s.install.Fails?
    || (s.install.Returns? && s.reload.Fails?)
    || (s.install.Returns? && s.reload.Returns? && (s.health.Unhealthy? || s.health.NoAnswer?))
  }

  /** A call of the rollback raised, or its health answer is not healthy. */
  predicate RestoreFails(r: Rollback<Document>) {
    || r.restore.CopyFails?
    || (r.restore.Copied? && r.reload.Fails?)
    || (r.restore.Copied? && r.reload.Returns? && (r.health.Unhealthy? || r.health.NoAnswer?))
  }

  /** A healthy answer after a complete restore and a clean reload. */
  predicate Restores(r: Rollback<Document>) {
    r.restore.Copied? && r.reload.Returns? && r.health.Healthy?
  }

  /** Every outcome, by the answers of the runtime alone: a clean activation is applied, a failed one is
      rolled back, and the rollback is verified exactly when its own answers confirm it. */
  lemma OutcomesExactly(rt: Runtime, candidate: Candidate, s: Script)
    ensures var o := Apply(rt, candidate, s).outcome;
            && (o.Unconfirmed? <==> s.Foreign?)
            && (o.Refused? <==> s.Forwarder? && !s.preflight)
            && (o.Applied? <==> s.Forwarder? && s.preflight && s.install.Returns? && s.reload.Returns? && s.health.Healthy?)
            && (o.RollbackVerified? <==> s.Forwarder? && s.preflight && ActivationFails(s) && Restores(s.rollback))
            && (o.RollbackUnknown? <==> s.Forwarder? && s.preflight && ActivationFails(s) && RestoreFails(s.rollback))
  {
  }

  /** What a failed activation leaves. The file is the one from before unless the restore itself was
      interrupted; the process runs it exactly when the reload of the rollback took effect. */
  lemma FailedActivationIsRolledBack(rt: Runtime, candidate: Candidate, s: Script)
    requires s.Forwarder? && s.preflight && ActivationFails(s)
    ensures var after := Apply(rt, candidate, s).runtime;
            && after.file == (if s.rollback.restore.Copied? then rt.file else s.rollback.restore.left)
            && (s.rollback.restore.Copied? && s.rollback.reload.TookEffect() ==> after.loaded == rt.file)
            && (!(s.rollback.restore.Copied? && s.rollback.reload.TookEffect()) ==>
                  after.loaded ==
                    if s.install.Returns? && s.reload.TookEffect() then candidate.document else rt.loaded)
  {
  }

  /** What a process that dies in the activation leaves, call by call. */
  lemma DyingActivationLeaves(rt: Runtime, candidate: Candidate, s: Script)
    requires s.Forwarder? && s.preflight
    ensures var p := Apply(rt, candidate, s);
            && (s.install.Dies? ==>
                  p == Projection(rt.(file := if s.install.tookEffect then candidate.document else rt.file), Died))
            && (s.install.Returns? && s.reload.Dies? ==>
                  p == Projection(Runtime(candidate.document, if s.reload.tookEffect then candidate.document else rt.loaded), Died))
            && (s.install.Returns? && s.reload.Returns? && s.health.HealthDies? ==>
                  p == Projection(Runtime(candidate.document, candidate.document), Died))
  {
  }

  class Provider {
    var file: Document
    var loaded: Document

    constructor (file: Document, loaded: Document)
      ensures this.file == file && this.loaded == loaded
    {
      this.file, this.loaded := file, loaded;
    }

    function State(): Runtime
      reads this
    {
      Runtime(file, loaded)
    }

    /** `apply`: back up, install, reload, ask for health; anything short of a healthy answer after
        a clean reload is rolled back. */
    method ApplyCandidate(candidate: Candidate, s: Script) returns (outcome: Outcome)
      modifies this
      ensures Projection(State(), outcome) == Apply(old(State()), candidate, s)
    {
      if s.Foreign? {
        file, loaded := s.leaves.file, s.leaves.loaded;
        return Unconfirmed;
      }
      if !s.preflight {
        return Refused;
      }
      var backup := file;
      if s.install.TookEffect() {
        file := candidate.document;
      }
      if s.install.Dies? {
        return Died;
      }
      if s.install.Returns? {
        if s.reload.TookEffect() {
          loaded := file;
        }
        if s.reload.Dies? || (s.reload.Returns? && s.health.HealthDies?) {
          return Died;
        }
        if s.reload.Returns? && s.health.Healthy? {
          return Applied;
        }
      }
      outcome := Rollback(backup, s.rollback);
    }

    /** `_rollback`: a restored file and a clean reload prove nothing until health says so. */
    method Rollback(backup: Document, s: Rollback<Document>) returns (outcome: Outcome)
      modifies this
      ensures Projection(State(), outcome) == RollBack(old(State()), backup, s)
    {
      match s.restore {
        case CopyDies(left) =>
          file := left;
          return Died;
        case CopyFails(left) =>
          file := left;
          return RollbackUnknown;
        case Copied =>
          file := backup;
      }
      if s.reload.TookEffect() {
        loaded := file;
      }
      if s.reload.Dies? || (s.reload.Returns? && s.health.HealthDies?) {
        return Died;
      }
      if s.reload.Fails? || !s.health.Healthy? {
        return RollbackUnknown;
      }
      return RollbackVerified;
    }
  }
}
