/** The saga in place: one business session, one run record, one accounting user, and the trace,
    changed step by step and proved equal to module ProvisioningSaga. */
module ProvisioningService {
  import opened DurablePurchase
  import opened ProvisioningSaga
  import opened Wrappers
  import opened Durable

  class Service {
    var pending: set<Change>
    var saved: set<Change>
    var business: Business
    var run: Run
    var user: User
    var gatewayApplied: bool
    var log: seq<Event>

    constructor ()
      ensures Now() == START
    {
      pending, saved, business, run, user, gatewayApplied, log := {}, {}, Unpaid, NoRun, Absent, false, [];
    }

    function Now(): State
      reads this
    {
      State(pending, saved, business, run, user, gatewayApplied, log)
    }

    method FlushRow(c: Change)
      modifies this`pending, this`log
      ensures Now() == Flush(old(Now()), c)
    {
      pending := pending + {c};
      log := log + [Flushed(c)];
    }

    method RollbackDatabase()
      modifies this`pending, this`log
      ensures Now() == Rollback(old(Now()))
    {
      pending := {};
      log := log + [RolledBack];
    }

    /** `order_state.transaction()` around one business change. */
    method Transact(b: Business, c: Durable.Commit)
      modifies this`pending, this`saved, this`business, this`log
      ensures Now() == ProvisioningSaga.Commit(old(Now()), b, c)
    {
      if c.Lands() {
        business := b;
        saved := saved + pending;
        log := log + [Committed(b)];
      }
      if c.Acked? {
        pending := {};
      } else if c.Raises() {
        RollbackDatabase();
      }
    }

    method MarkStatus(r: Run, c: Durable.Commit)
      modifies this`run, this`log
      ensures Now() == Mark(old(Now()), r, c)
    {
      if c.Lands() {
        run := r;
        log := log + [Marked(r)];
      }
    }

    method Failed(x: Script) returns (ended: Ended)
      modifies this`pending, this`run, this`log
      ensures Stage(Now(), ended) == FailStep(old(Now()), x)
    {
      RollbackDatabase();
      MarkStatus(FAILED, x.markInStep);
      ended := if x.markInStep.Crashes() then Crashed else Raised;
    }

    method DisableUser(d: Disabling) returns (raised: bool)
      modifies this`user
      ensures Now() == WithDisabled(old(Now()), d) && raised == d.DisableRaises?
    {
      if user.Enabled? && (d.DisableWorks? || d.tookEffect) {
        user := Disabled;
      }
      raised := d.DisableRaises?;
    }

    /** `_compensate_created_accounting_user`. */
    method CompensateCreatedUser(x: Script) returns (ended: Ended)
      modifies this`pending, this`run, this`user, this`log
      ensures Stage(Now(), ended) == CompensateUser(old(Now()), x)
    {
      var raised := DisableUser(x.disabling);
      if raised {
        return Manual;
      }
      ended := Failed(x);
    }

    /** CREATE_ACCOUNTING_USER with its typed effects. */
    method CreateAccountingUser(x: Script) returns (ended: Ended)
      modifies this`pending, this`run, this`user, this`log
      ensures Stage(Now(), ended) == CreateUser(old(Now()), x)
    {
      match x.creation {
        case UserCreated =>
          user := Enabled;
          ended := Continue;
        case NoSideEffect =>
          ended := Failed(x);
        case Ambiguous(made) =>
          if made {
            user := Enabled;
          }
          ended := Manual;
        case ContractViolated =>
          user := Enabled;
          ended := CompensateCreatedUser(x);
        case CreatedError =>
          user := Enabled;
          ended := CompensateCreatedUser(x);
        case Untyped(made) =>
          if made {
            user := Enabled;
          }
          ended := CompensateCreatedUser(x);
      }
    }

    /** `provision_prepare`. */
    method ProvisionPrepare(x: Script) returns (ended: Ended)
      modifies this`pending, this`run, this`user, this`log
      ensures Stage(Now(), ended) == Prepare(old(Now()), x)
    {
      MarkStatus(RUNNING, x.start);
      if !x.start.Acked? {
        return if x.start.Raises() then Raised else Crashed;
      }
      if x.capacity.CapacityRaises? {
        return Raised;
      }
      if x.capacity.Exceeded? {
        ended := Failed(x);
        return;
      }
      FlushRow(EndpointRow);
      if !x.allocate {
        ended := Failed(x);
        return;
      }
      if !x.tenant {
        return Manual;
      }
      FlushRow(CredentialRow);
      if !x.credentials {
        ended := Failed(x);
        return;
      }
      if !x.forwarderState {
        return Raised;
      }
      if x.forwarder.ForwarderRaises? {
        if !x.forwarder.restored {
          return Manual;
        }
        ended := Failed(x);
        return;
      }
      ended := CreateAccountingUser(x);
    }

    /** `provision_apply_gateway`. */
    method ProvisionApplyGateway(x: Script) returns (ended: Ended)
      modifies this`pending, this`run, this`user, this`gatewayApplied, this`log
      ensures Stage(Now(), ended) == ApplyGateway(old(Now()), x)
    {
      FlushRow(RouteRow);
      if !x.gateway {
        var raised := DisableUser(x.disabling);
        if raised {
          return Manual;
        }
        ended := Failed(x);
        return;
      }
      gatewayApplied := true;
      FlushRow(TokenRow);
      if !x.subscription {
        ended := Failed(x);
        return;
      }
      ended := Continue;
    }

    /** `_mark_pending_manual`. */
    method MarkPendingManual(x: Script) returns (ended: Ended)
      modifies this`pending, this`saved, this`business, this`run, this`log
      ensures Stage(Now(), ended) == MarkManual(old(Now()), x)
    {
      Transact(ReviewPending, x.manual);
      if !x.manual.Acked? {
        return Signal(x.manual, Manual);
      }
      MarkStatus(PENDING_MANUAL, x.markAtEnd);
      ended := if x.markAtEnd.Crashes() then Crashed else Manual;
    }

    method FailPaidPurchase(x: Script) returns (ended: Ended)
      modifies this`pending, this`saved, this`business, this`log
      ensures Stage(Now(), ended) == FailPurchase(old(Now()), x)
    {
      Transact(PurchaseFailed, x.failure);
      ended := if x.failure.Crashes() then Crashed else Raised;
    }

    method FailAndMarkRun(x: Script) returns (ended: Ended)
      modifies this`pending, this`saved, this`business, this`run, this`log
      ensures Stage(Now(), ended) == FailAndMark(old(Now()), x)
    {
      ended := FailPaidPurchase(x);
      if x.failure.Acked? {
        MarkStatus(FAILED, x.markAtEnd);
        ended := if x.markAtEnd.Crashes() then Crashed else Raised;
      }
    }

    method UnderLock(x: Script) returns (ended: Ended)
      modifies this
      ensures Stage(Now(), ended) == LockedPhase(old(Now()), x)
    {
      ended := ProvisionApplyGateway(x);
      match ended {
        case Crashed =>
        case Raised =>
          RollbackDatabase();
          ended := FailAndMarkRun(x);
        case Manual =>
          ended := MarkPendingManual(x);
          if ended.Raised? {
            ended := FailAndMarkRun(x);
          }
        case Continue =>
          Transact(Activated, x.activate);
          if x.activate.Acked? {
            MarkStatus(SUCCEEDED, x.markAtEnd);
            ended := if x.markAtEnd.Crashes() then Crashed else Continue;
          } else if x.activate.Crashes() {
            ended := Crashed;
          } else {
            ended := FailAndMarkRun(x);
          }
      }
    }

    /** The handler of a lock that could not be acquired. */
    method WithoutLock(x: Script) returns (ended: Ended)
      modifies this
      ensures Stage(Now(), ended) == Unlocked(old(Now()), x)
    {
      RollbackDatabase();
      var raised := DisableUser(x.disabling);
      if raised {
        ended := MarkPendingManual(x);
        return;
      }
      MarkStatus(FAILED, x.markInStep);
      if !x.markInStep.Acked? {
        return if x.markInStep.Crashes() then Crashed else Raised;
      }
      ended := FailPaidPurchase(x);
    }

    /** `_handle_pre_gateway_failure`, after the rollback. */
    method HandlePreGatewayFailure(x: Script) returns (ended: Ended)
      modifies this
      ensures Stage(Now(), ended) == BeforeGateway(old(Now()), x)
    {
      RollbackDatabase();
      ended := CompensateCreatedUser(x);
      if ended.Manual? {
        ended := MarkPendingManual(x);
      } else if ended.Raised? {
        ended := FailPaidPurchase(x);
      }
    }

    /** `_confirm_paid_purchase_durable`. */
    method ConfirmDurably(x: Script, d: Answers) returns (ended: Ended)
      modifies this
      ensures Stage(Now(), ended) == DurablePhase(old(Now()), x, d)
    {
      if !x.locked || d.blocked {
        ended := HandlePreGatewayFailure(x);
        return;
      }
      FlushRow(TokenRow);
      if d.token {
        FlushRow(RouteRow);
      }
      if !d.token || !d.route {
        ended := HandlePreGatewayFailure(x);
        return;
      }
      Transact(Paid, d.first);
      if d.first.Crashes() {
        return Crashed;
      }
      if d.first.Acked? {
        ended := ReconcileInSession(d);
        return;
      }
      match d.answer {
        case SaysLanded =>
          ended := Continue;
        case SaysAbsent =>
          ended := HandlePreGatewayFailure(x);
        case SaysUnknown =>
          RollbackDatabase();
          ended := MarkPendingManual(x);
      }
    }

    /** The attempt in the session of the purchase: a confirmed projection settles order, subscription
        and run in one transaction. */
    method ReconcileInSession(d: Answers) returns (ended: Ended)
      modifies this
      ensures Stage(Now(), ended) == Attempt(old(Now()), d)
    {
      if !d.claimed.Acked? {
        return Signal(d.claimed, Continue);
      }
      if !d.projection.Confirmed? {
        return if d.projection.Killed? then Crashed else Continue;
      }
      gatewayApplied := true;
      if d.finalize.Lands() {
        business, run := Activated, SUCCEEDED;
        log := log + [Committed(Activated), Marked(SUCCEEDED)];
      }
      ended := if d.finalize.Raises() && d.observed then Continue else Signal(d.finalize, Continue);
    }

    /** `confirm_payment_and_provision`; `durable` says that the gateway is the Xray file provider over
        the committed tables, with its answers. */
    method ConfirmPaymentAndProvision(x: Script, durable: Option<Answers>) returns (ended: Ended)
      requires Now() == START
      modifies this
      ensures Stage(Now(), ended) == (if durable.Some? then ConfirmWith(x, durable.value) else Confirm(x))
    {
      if x.gate.CapacityRaises? {
        return Raised;
      }
      if x.gate.Exceeded? {
        Transact(Rejected, x.reject);
        return if x.reject.Crashes() then Crashed else Raised;
      }
      if !x.payment {
        return Raised;
      }
      Transact(Paid, x.pay);
      if !x.pay.Acked? {
        return Signal(x.pay, Continue);
      }
      ended := ProvisionPrepare(x);
      match ended {
        case Crashed =>
        case Raised =>
          RollbackDatabase();
          ended := FailPaidPurchase(x);
        case Manual =>
          ended := MarkPendingManual(x);
        case Continue =>
          if durable.Some? {
            ended := ConfirmDurably(x, durable.value);
          } else if x.locked {
            ended := UnderLock(x);
          } else {
            ended := WithoutLock(x);
          }
      }
    }
  }
}
