/** What one transaction attempt does to a database whose acknowledgement may be lost.

    The session of the caller learns `Acked` or an exception; only an independent observer can
    tell `LostLanded` from `LostAbsent`. The two crash cases end the process at the commit. */
module Durable {

  datatype Commit = Acked | LostLanded | LostAbsent | CrashLanded | CrashAbsent {
    /** The transaction is durable, whatever the caller was told. */
    predicate Lands() {
      Acked? || LostLanded? || CrashLanded?
    }

    /** The caller gets an exception instead of an acknowledgement. */
    predicate Raises() {
      LostLanded? || LostAbsent?
    }

    predicate Crashes() {
      CrashLanded? || CrashAbsent?
    }
  }

  function After<T>(durable: T, proposed: T, commit: Commit): T {
    if commit.Lands() then proposed else durable
  }
}
