/** How a paid purchase ends, by its faults alone: every ending of the control flow, of the order and of
    the run, from the payment to the last handler (backend/app/domain/provisioning.py,
    backend/app/services.py). */
module ProvisioningEndings {
  import opened ProvisioningSaga
  import Durable

  // ----------------------------------------------------- before the gateway

  /** An order is paid exactly when there is capacity for it, the provider confirms the payment, and the
      payment lands; it is rejected exactly when capacity is exceeded and the rejection lands. Without
      capacity no run is started and no user is made. */
  lemma PaidExactly(x: Script)
    ensures var s := Confirm(x).state;
            && (Committed(Paid) in s.log <==> x.gate.Enough? && x.payment && x.pay.Lands())
            && (s.business.Rejected? <==> x.gate.Exceeded? && x.reject.Lands())
            && (!x.gate.Enough? ==>
                  s.run.NoRun? && s.user.Absent? && s.saved == {} && (s.business.Unpaid? || s.business.Rejected?))
  {
    hide Prepare, LockedPhase, Unlocked, MarkManual, FailPurchase;
    if x.gate.Enough? && x.payment {
      var paid := Commit(START, Paid, x.pay);
      assert Committed(Paid) in paid.log <==> x.pay.Lands();
      ProvisionKeepsLog(paid, x);
    }
  }

  /** Nothing takes events out of the trace, and nothing after the payment rejects the order. */
  ghost predicate Extends(s: State, t: State) {
    && (forall e | e in s.log :: e in t.log)
    && (t.business == s.business || t.business in {ReviewPending, PurchaseFailed, Activated})
    && (Committed(Paid) in t.log ==> Committed(Paid) in s.log)
  }

  lemma ExtendsTrans(s: State, t: State, u: State)
    requires Extends(s, t) && Extends(t, u)
    ensures Extends(s, u)
  {
  }

  lemma StepsExtend(s: State, c: Change, b: Business, k: Durable.Commit, r: Run)
    requires b in {ReviewPending, PurchaseFailed, Activated}
    ensures Extends(s, Flush(s, c)) && Extends(s, Rollback(s)) && Extends(s, Mark(s, r, k)) && Extends(s, Commit(s, b, k))
  {
  }

  /** The user and the gateway are no part of the trace. */
  lemma SameLogExtends(s: State, s': State, t: State)
    requires s'.log == s.log && s'.business == s.business
    ensures Extends(s', t) ==> Extends(s, t)
    ensures Extends(s, s')
  {
  }

  lemma EndingsExtend(s: State, x: Script)
    ensures Extends(s, MarkManual(s, x).state) && Extends(s, FailPurchase(s, x).state) && Extends(s, FailAndMark(s, x).state)
    ensures Extends(s, FailStep(s, x).state)
  {
    hide Commit, Mark, Rollback, Extends;
    StepsExtend(s, RouteRow, ReviewPending, x.manual, FAILED);
    var reviewed := Commit(s, ReviewPending, x.manual);
    StepsExtend(reviewed, RouteRow, ReviewPending, x.markAtEnd, PENDING_MANUAL);
    ExtendsTrans(s, reviewed, Mark(reviewed, PENDING_MANUAL, x.markAtEnd));
    StepsExtend(s, RouteRow, PurchaseFailed, x.failure, FAILED);
    var failed := Commit(s, PurchaseFailed, x.failure);
    StepsExtend(failed, RouteRow, ReviewPending, x.markAtEnd, FAILED);
    ExtendsTrans(s, failed, Mark(failed, FAILED, x.markAtEnd));
    StepsExtend(Rollback(s), RouteRow, ReviewPending, x.markInStep, FAILED);
    ExtendsTrans(s, Rollback(s), Mark(Rollback(s), FAILED, x.markInStep));
  }

  lemma CompensateExtends(s: State, x: Script)
    ensures Extends(s, CompensateUser(s, x).state)
  {
    hide FailStep, Extends;
    var s' := WithDisabled(s, x.disabling);
    EndingsExtend(s', x);
    SameLogExtends(s, s', FailStep(s', x).state);
  }

  lemma CreateUserExtends(s: State, x: Script)
    ensures Extends(s, CreateUser(s, x).state)
  {
    hide FailStep, Extends, CompensateUser;
    EndingsExtend(s, x);
    CompensateExtends(s, x);
    var made := s.(user := Enabled);
    CompensateExtends(made, x);
    SameLogExtends(s, made, CompensateUser(made, x).state);
    SameLogExtends(s, s, s);
  }

  lemma PrepareExtends(s: State, x: Script)
    ensures Extends(s, Prepare(s, x).state)
  {
    hide FailStep, Flush, CreateUser, Extends, Mark;
    StepsExtend(s, EndpointRow, ReviewPending, x.start, RUNNING);
    MarkedAtStart(s, x);
    var started := Mark(s, RUNNING, x.start);
    EndingsExtend(started, x);
    StepsExtend(started, EndpointRow, ReviewPending, x.start, RUNNING);
    var reserved := Flush(started, EndpointRow);
    EndingsExtend(reserved, x);
    StepsExtend(reserved, CredentialRow, ReviewPending, x.start, RUNNING);
    var stored := Flush(reserved, CredentialRow);
    EndingsExtend(stored, x);
    CreateUserExtends(stored, x);
    ExtendsTrans(s, started, FailStep(started, x).state);
    ExtendsTrans(s, started, reserved);
    ExtendsTrans(s, reserved, FailStep(reserved, x).state);
    ExtendsTrans(s, reserved, stored);
    ExtendsTrans(s, stored, FailStep(stored, x).state);
    ExtendsTrans(s, stored, CreateUser(stored, x).state);
  }

  lemma MarkedAtStart(s: State, x: Script)
    ensures Mark(s, RUNNING, x.start) ==
            if x.start.Lands() then s.(run := RUNNING, log := s.log + [Marked(RUNNING)]) else s
  {
  }

  lemma ApplyExtends(s: State, x: Script)
    ensures Extends(s, ApplyGateway(s, x).state)
  {
    hide FailStep, Flush, Extends;
    StepsExtend(s, RouteRow, Activated, x.activate, FAILED);
    var routed := Flush(s, RouteRow);
    CompensateExtends(routed, x);
    ExtendsTrans(s, routed, CompensateUser(routed, x).state);
    var applied := routed.(gatewayApplied := true);
    StepsExtend(applied, TokenRow, Activated, x.activate, FAILED);
    var issued := Flush(applied, TokenRow);
    EndingsExtend(issued, x);
    SameLogExtends(routed, applied, issued);
    ExtendsTrans(s, routed, issued);
    ExtendsTrans(s, issued, FailStep(issued, x).state);
  }

  lemma LockedExtends(s: State, x: Script)
    ensures Extends(s, LockedPhase(s, x).state)
  {
    hide Commit, Mark, MarkManual, FailAndMark, ApplyGateway, Rollback, Extends;
    ApplyExtends(s, x);
    var b := ApplyGateway(s, x).state;
    StepsExtend(b, RouteRow, Activated, x.activate, FAILED);
    EndingsExtend(Rollback(b), x);
    ExtendsTrans(b, Rollback(b), FailAndMark(Rollback(b), x).state);
    EndingsExtend(b, x);
    var m := MarkManual(b, x).state;
    EndingsExtend(m, x);
    ExtendsTrans(b, m, FailAndMark(m, x).state);
    var activated := Commit(b, Activated, x.activate);
    EndingsExtend(activated, x);
    ExtendsTrans(b, activated, FailAndMark(activated, x).state);
    StepsExtend(activated, RouteRow, Activated, x.markAtEnd, SUCCEEDED);
    ExtendsTrans(b, activated, Mark(activated, SUCCEEDED, x.markAtEnd));
    ExtendsTrans(s, b, LockedPhase(s, x).state);
  }

  lemma UnlockedExtends(s: State, x: Script)
    ensures Extends(s, Unlocked(s, x).state)
  {
    hide Commit, Mark, MarkManual, FailPurchase, Rollback, Extends;
    StepsExtend(s, RouteRow, Activated, x.activate, FAILED);
    var s' := WithDisabled(Rollback(s), x.disabling);
    EndingsExtend(s', x);
    StepsExtend(s', RouteRow, Activated, x.markInStep, FAILED);
    var marked := Mark(s', FAILED, x.markInStep);
    EndingsExtend(marked, x);
    ExtendsTrans(s', marked, FailPurchase(marked, x).state);
    SameLogExtends(Rollback(s), s', Unlocked(s, x).state);
    ExtendsTrans(s, Rollback(s), Unlocked(s, x).state);
  }

  lemma ProvisionKeepsLog(s: State, x: Script)
    ensures Extends(s, Provision(s, x).state)
  {
    hide Prepare, LockedPhase, Unlocked, MarkManual, FailPurchase, Rollback, Extends;
    PrepareExtends(s, x);
    var a := Prepare(s, x).state;
    StepsExtend(a, RouteRow, Activated, x.activate, FAILED);
    EndingsExtend(a, x);
    EndingsExtend(Rollback(a), x);
    LockedExtends(a, x);
    UnlockedExtends(a, x);
    SameLogExtends(a, a, a);
    ExtendsTrans(a, Rollback(a), FailPurchase(Rollback(a), x).state);
    ExtendsTrans(s, a, Provision(s, x).state);
  }

  /** How far phase A gets. */
  predicate HasCapacity(x: Script) {
    x.start.Acked? && x.capacity.Enough?
  }

  predicate HasTenant(x: Script) {
    HasCapacity(x) && x.allocate && x.tenant
  }

  predicate HasForwarding(x: Script) {
    HasTenant(x) && x.credentials && x.forwarderState && x.forwarder.Forwarded?
  }

  /** A creation that has to be taken back: the user exists, or nobody can rule it out. */
  predicate MustBeDisabled(c: Creation) {
    c.ContractViolated? || c.CreatedError? || c.Untyped?
  }

  /** Phase A asks for manual review. */
  predicate AsksInPhaseA(x: Script) {
    || (HasCapacity(x) && x.allocate && !x.tenant)
    || (HasTenant(x) && x.credentials && x.forwarderState && x.forwarder == ForwarderRaises(false))
    || (HasForwarding(x) && (x.creation.Ambiguous? || (MustBeDisabled(x.creation) && x.disabling.DisableRaises?)))
  }

  /** A step of phase A failed and its run is to be marked FAILED. */
  predicate FailsInPhaseA(x: Script) {
    || (x.start.Acked? && x.capacity.Exceeded?)
    || (HasCapacity(x) && !x.allocate)
    || (HasTenant(x) && !x.credentials)
    || (HasTenant(x) && x.credentials && x.forwarderState && x.forwarder == ForwarderRaises(true))
    || (HasForwarding(x) && (x.creation.NoSideEffect? || (MustBeDisabled(x.creation) && x.disabling.DisableWorks?)))
  }

  /** Every ending of phase A, by the script alone. It asks for manual review exactly when an effect
      outside the database cannot be ruled out or taken back, and its run is FAILED exactly when a step
      failed without such an effect and the status could be written. */
  lemma PhaseAExactly(x: Script, s: State)
    requires s.user.Absent? && s.run.NoRun?
    ensures var e := Prepare(s, x);
            && (e.ended.Manual? <==> AsksInPhaseA(x))
            && (e.state.run.FAILED? <==> FailsInPhaseA(x) && x.markInStep.Lands())
            && (e.state.user.Enabled? <==>
                  && HasForwarding(x)
                  && (|| x.creation.UserCreated? || x.creation == Ambiguous(true)
                      || ((x.creation.ContractViolated? || x.creation.CreatedError? || x.creation == Untyped(true))
                          && x.disabling == DisableRaises(false))))
  {
  }

  /** Phase A dies only where it writes its run, and goes on only with every step passed. */
  lemma PhaseAEnds(x: Script, s: State)
    ensures var e := Prepare(s, x).ended;
            && (e.Crashed? <==> x.start.Crashes() || (FailsInPhaseA(x) && x.markInStep.Crashes()))
            && (e.Continue? <==> HasForwarding(x) && x.creation.UserCreated?)
            && (e.Raised? <==>
                  || x.start.Raises() || (FailsInPhaseA(x) && !x.markInStep.Crashes())
                  || (x.start.Acked? && x.capacity.CapacityRaises?)
                  || (HasTenant(x) && x.credentials && !x.forwarderState))
  {
  }

  // -------------------------------------------------- every ending, exactly

  /** The order up to its payment. */
  lemma EndsBeforeTheSaga(x: Script)
    requires !(x.gate.Enough? && x.payment && x.pay.Acked?)
    ensures var e := Confirm(x);
            && (e.ended.Crashed? <==>
                  (x.gate.Exceeded? && x.reject.Crashes()) || (x.gate.Enough? && x.payment && x.pay.Crashes()))
            && (e.ended.Raised? <==> !e.ended.Crashed?)
            && e.state.run.NoRun? && e.state.user.Absent?
            && (e.state.business.Paid? <==> x.gate.Enough? && x.payment && x.pay.Lands())
  {
  }

  /** A paid order that does not reach its checkpoint: reviewed when phase A asks for it, failed when
      phase A raises. */
  lemma EndsInPhaseA(x: Script)
    requires x.gate.Enough? && x.payment && x.pay.Acked? && !Reached(x)
    ensures var e := Confirm(x);
            var raises := !AsksInPhaseA(x) && !x.start.Crashes() && !(FailsInPhaseA(x) && x.markInStep.Crashes());
            && (e.ended.Manual? <==> AsksInPhaseA(x) && x.manual.Acked? && !x.markAtEnd.Crashes())
            && (e.ended.Raised? <==> (AsksInPhaseA(x) && x.manual.Raises()) || (raises && !x.failure.Crashes()))
            && !e.ended.Continue?
            && (e.state.business.ReviewPending? <==> AsksInPhaseA(x) && x.manual.Lands())
            && (e.state.business.PurchaseFailed? <==> raises && x.failure.Lands())
            && (e.state.run.PENDING_MANUAL? <==> AsksInPhaseA(x) && x.manual.Acked? && x.markAtEnd.Lands())
            && !e.state.run.SUCCEEDED? && !e.state.gatewayApplied
  {
    hide Prepare, Commit, Mark, LockedPhase, Unlocked;
    var paid := Commit(START, Paid, x.pay);
    PaidShape(x);
    PhaseAExactly(x, paid);
    PhaseAEnds(x, paid);
    PrepareShape(paid, x);
    PhaseARuns(x, paid);
    var a := Prepare(paid, x).state;
    CommitShape(a, ReviewPending, x.manual);
    CommitShape(Rollback(a), PurchaseFailed, x.failure);
    MarkShape(Commit(a, ReviewPending, x.manual), PENDING_MANUAL, x.markAtEnd);
  }

  lemma PaidShape(x: Script)
    requires x.pay.Acked?
    ensures var s := Commit(START, Paid, x.pay);
            Fresh(s) && s.pending == {} && s.user.Absent? && s.run.NoRun?
  {
  }

  lemma MarkShape(s: State, r: Run, c: Durable.Commit)
    ensures var s' := Mark(s, r, c);
            && s'.run == (if c.Lands() then r else s.run) && s'.business == s.business && s'.user == s.user
            && s'.saved == s.saved && s'.gatewayApplied == s.gatewayApplied && s'.pending == s.pending
  {
  }

  lemma PhaseARuns(x: Script, s: State)
    requires s.run.NoRun?
    ensures var r := Prepare(s, x).state.run; r.NoRun? || r.RUNNING? || r.FAILED?
    ensures Prepare(s, x).state.business == s.business
  {
  }

  /** The last handler died: in the failed purchase, or in the status after it. */
  predicate LastHandlerDies(x: Script) {
    x.failure.Crashes() || (x.failure.Acked? && x.markAtEnd.Crashes())
  }

  /** How a purchase with the lock ends, by its faults alone. */
  predicate LockedOutcome(e: Stage, x: Script) {
    var served := x.gateway && x.subscription;
    var fails := !served && !GatewayUncompensated(x);
    && (e.ended.Continue? <==> served && x.activate.Acked? && !x.markAtEnd.Crashes())
    && (e.ended.Manual? <==> GatewayUncompensated(x) && x.manual.Acked? && !x.markAtEnd.Crashes())
    && (e.ended.Crashed? <==>
          || (served && (x.activate.Crashes() || (x.activate.Acked? && x.markAtEnd.Crashes())
                         || (x.activate.Raises() && LastHandlerDies(x))))
          || (GatewayUncompensated(x) && (x.manual.Crashes() || (x.manual.Acked? && x.markAtEnd.Crashes())
                                          || (x.manual.Raises() && LastHandlerDies(x))))
          || (fails && (x.markInStep.Crashes() || LastHandlerDies(x))))
    && (e.state.business.Activated? <==> served && x.activate.Lands() && !(x.activate.Raises() && x.failure.Lands()))
    && (e.state.business.ReviewPending? <==>
          GatewayUncompensated(x) && x.manual.Lands() && !(x.manual.Raises() && x.failure.Lands()))
    && (e.state.business.PurchaseFailed? <==>
          && x.failure.Lands()
          && ((served && x.activate.Raises()) || (GatewayUncompensated(x) && x.manual.Raises())
              || (fails && !x.markInStep.Crashes())))
    && (e.state.run.SUCCEEDED? <==> served && x.activate.Acked? && x.markAtEnd.Lands())
    && (e.state.run.PENDING_MANUAL? <==> GatewayUncompensated(x) && x.manual.Acked? && x.markAtEnd.Lands())
    && e.state.gatewayApplied == x.gateway
  }

  /** How a purchase without the lock ends: like a failed gateway, but the failed purchase is recorded only
      after the FAILED run was acknowledged. */
  predicate UnlockedOutcome(e: Stage, x: Script) {
    && (e.ended.Manual? <==> x.disabling.DisableRaises? && x.manual.Acked? && !x.markAtEnd.Crashes())
    && (e.ended.Crashed? <==>
          || (x.disabling.DisableRaises? && (x.manual.Crashes() || (x.manual.Acked? && x.markAtEnd.Crashes())))
          || (x.disabling.DisableWorks? && (x.markInStep.Crashes() || (x.markInStep.Acked? && x.failure.Crashes()))))
    && !e.ended.Continue?
    && (e.state.run.FAILED? <==> x.disabling.DisableWorks? && x.markInStep.Lands())
    && (e.state.run.PENDING_MANUAL? <==> x.disabling.DisableRaises? && x.manual.Acked? && x.markAtEnd.Lands())
    && (e.state.business.PurchaseFailed? <==> x.disabling.DisableWorks? && x.markInStep.Acked? && x.failure.Lands())
    && (e.state.business.ReviewPending? <==> x.disabling.DisableRaises? && x.manual.Lands())
    && (e.state.user.Disabled? <==> x.disabling != DisableRaises(false))
    && !e.state.gatewayApplied && e.state.saved == {}
  }

  /** A purchase that reached its checkpoint and got the lock, to its very end. */
  lemma EndsUnderTheLock(x: Script)
    requires Reached(x) && x.locked
    ensures LockedOutcome(Confirm(x), x)
  {
    hide Prepare, Commit, Rollback, ApplyGateway, LockedPhase;
    ConfirmShape(x);
    LockedEnds(x, Prepare(Commit(START, Paid, x.pay), x).state);
  }

  lemma LockedEnds(x: Script, s: State)
    requires Fresh(s) && s.user.Enabled? && s.pending == {EndpointRow, CredentialRow} && s.run.RUNNING?
    ensures LockedOutcome(LockedPhase(s, x), x)
  {
    hide Commit, Mark, ApplyGateway;
    GatewayShape(s, x);
    GatewayEnds(s, x);
    var b := ApplyGateway(s, x).state;
    CommitShape(b, Activated, x.activate);
    var activated := Commit(b, Activated, x.activate);
    MarkShape(activated, SUCCEEDED, x.markAtEnd);
    CommitShape(activated, PurchaseFailed, x.failure);
    MarkShape(Commit(activated, PurchaseFailed, x.failure), FAILED, x.markAtEnd);
    CommitShape(b, ReviewPending, x.manual);
    var reviewed := Commit(b, ReviewPending, x.manual);
    MarkShape(reviewed, PENDING_MANUAL, x.markAtEnd);
    CommitShape(reviewed, PurchaseFailed, x.failure);
    MarkShape(Commit(reviewed, PurchaseFailed, x.failure), FAILED, x.markAtEnd);
    CommitShape(Rollback(b), PurchaseFailed, x.failure);
    MarkShape(Commit(Rollback(b), PurchaseFailed, x.failure), FAILED, x.markAtEnd);
  }

  lemma GatewayEnds(s: State, x: Script)
    requires s.run.RUNNING?
    ensures var b := ApplyGateway(s, x);
            && (b.ended.Crashed? <==> !(x.gateway && x.subscription) && !GatewayUncompensated(x) && x.markInStep.Crashes())
            && (b.state.run.RUNNING? || b.state.run.FAILED?)
  {
  }

  /** A purchase that reached its checkpoint and could not get the lock. */
  lemma EndsWithoutTheLock(x: Script)
    requires Reached(x) && !x.locked
    ensures UnlockedOutcome(Confirm(x), x)
  {
    hide Prepare, Commit, LockedPhase, Unlocked;
    ConfirmShape(x);
    UnlockedEnds(x, Prepare(Commit(START, Paid, x.pay), x).state);
  }

  lemma UnlockedEnds(x: Script, s: State)
    requires Fresh(s) && s.user.Enabled? && s.run.RUNNING?
    ensures UnlockedOutcome(Unlocked(s, x), x)
  {
    hide Commit, Mark;
    var s' := WithDisabled(Rollback(s), x.disabling);
    CommitShape(s', ReviewPending, x.manual);
    MarkShape(Commit(s', ReviewPending, x.manual), PENDING_MANUAL, x.markAtEnd);
    MarkShape(s', FAILED, x.markInStep);
    CommitShape(Mark(s', FAILED, x.markInStep), PurchaseFailed, x.failure);
  }
}
