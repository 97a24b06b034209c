/** Adversarial answers of a managed process: every call may return, raise or kill the caller, and
    the last two may happen before or after the call took effect. */
module RuntimeCalls {

  datatype Call = Returns | Fails(tookEffect: bool) | Dies(tookEffect: bool) {
    predicate TookEffect() {
      Returns? || tookEffect
    }
  }

  /** Copying a backup over a file is not atomic: an interrupted copy leaves any content behind. */
  datatype Copy<+T> = Copied | CopyFails(left: T) | CopyDies(left: T)

  datatype Health = Healthy | Unhealthy | NoAnswer | HealthDies

  /** The environment of one rollback: restore, reload, health. */
  datatype Rollback<+T> = Rollback(restore: Copy<T>, reload: Call, health: Health)
}
