/** The paid purchase over the durable gateway queue: routes and intent in one first commit, and the
    projection after it (backend/app/services.py, _confirm_paid_purchase_durable). The trace of module
    ProvisioningSaga goes on where its checkpoint ends. */
module DurablePurchase {
  import Durable
  import opened ProvisioningSaga

  /** What an independent session says about a first commit that raised. */
  datatype Answer = SaysLanded | SaysAbsent | SaysUnknown

  datatype Projection = Confirmed | NotConfirmed | Killed

  /** The environment after the checkpoint, besides the faults that both compositions share. */
  datatype Answers = Answers(
    blocked: bool,               // an unresolved intent is in the queue
    token: bool,                 // the subscription token could be stored
    route: bool,                 // the route and the intent could be flushed
    first: Durable.Commit,
    answer: Answer,
    claimed: Durable.Commit,
    projection: Projection,
    finalize: Durable.Commit,
    observed: bool)              // the finalization could be classified

  /** `_handle_pre_gateway_failure`, after the rollback: a disabled user fails the run and then the
      purchase, one that cannot be disabled asks for manual review. */
  function BeforeGateway(s: State, x: Script): Stage {
    var c := CompensateUser(Rollback(s), x);
    match c.ended
    case Manual => MarkManual(c.state, x)
    case Raised => FailPurchase(c.state, x)
    case Crashed => c
    case Continue => c
  }

  /** The attempt that follows the first commit. The transaction that finalizes it settles order,
      subscription and run together. */
  function Attempt(s: State, d: Answers): Stage {
    if !d.claimed.Acked? then Stage(s, Signal(d.claimed, Continue))
    else
      match d.projection
      case Killed => Stage(s, Crashed)
      case NotConfirmed => Stage(s, Continue)
      case Confirmed =>
        var applied := s.(gatewayApplied := true);
        var settled := applied.(business := Activated, run := SUCCEEDED,
                                log := s.log + [Committed(Activated), Marked(SUCCEEDED)]);
        Stage(if d.finalize.Lands() then settled else applied,
              if d.finalize.Raises() && d.observed then Continue else Signal(d.finalize, Continue))
  }

  /** From the checkpoint to the end of the purchase. */
  function DurablePhase(s: State, x: Script, d: Answers): Stage {
    if !x.locked || d.blocked then BeforeGateway(s, x)
    else
      var token := Flush(s, TokenRow);
      if !d.token then BeforeGateway(token, x)
      else
        var flushed := Flush(token, RouteRow);
        if !d.route then BeforeGateway(flushed, x)
        else AfterFirst(Commit(flushed, Paid, d.first), x, d)
  }

  function AfterFirst(s: State, x: Script, d: Answers): Stage {
    if d.first.Crashes() then Stage(s, Crashed)
    else if d.first.Acked? then Attempt(s, d)
    else
      match d.answer
      case SaysLanded => Stage(s, Continue)
      case SaysAbsent => BeforeGateway(s, x)
      case SaysUnknown => MarkManual(Rollback(s), x)
  }

  predicate AtCheckpoint(x: Script) {
    && x.gate.Enough? && x.payment && x.pay.Acked?
    && Prepare(Commit(START, Paid, x.pay), x).ended.Continue?
  }

  /** The whole purchase: the same as the other composition up to its checkpoint. */
  function ConfirmWith(x: Script, d: Answers): Stage {
    if AtCheckpoint(x) then DurablePhase(Prepare(Commit(START, Paid, x.pay), x).state, x, d) else Confirm(x)
  }

  // ------------------------------------------------------ order of the trace

  lemma BeforeGatewayOk(s: State, x: Script)
    requires Ok(s)
    ensures Ok(BeforeGateway(s, x).state)
  {
    hide Ok, CompensateUser, MarkManual, FailPurchase, Rollback;
    RollbackOk(s);
    CompensateUserOk(Rollback(s), x);
    MarkManualOk(CompensateUser(Rollback(s), x).state, x);
    FailAndMarkOk(CompensateUser(Rollback(s), x).state, x);
  }

  lemma AttemptOk(s: State, d: Answers)
    requires Ok(s)
    ensures Ok(Attempt(s, d).state)
  {
    hide Justified, Uncommitted;
    SettledOk(s);
  }

  /** The commit that settles the purchase carries the SUCCEEDED run. */
  lemma SettledOk(s: State)
    requires Ok(s)
    ensures Ok(s.(log := s.log + [Committed(Activated), Marked(SUCCEEDED)]))
  {
    hide Ok, Commit, Mark;
    var c := s.(log := s.log + [Committed(Activated)]);
    CommittedOk(s);
    assert c.log[|s.log|] == Committed(Activated);
    MarkOk(c, SUCCEEDED, Durable.Acked);
    MarkedLog(c, SUCCEEDED);
    assert s.log + [Committed(Activated), Marked(SUCCEEDED)] == c.log + [Marked(SUCCEEDED)];
    SameTrace(Mark(c, SUCCEEDED, Durable.Acked), s.(log := s.log + [Committed(Activated), Marked(SUCCEEDED)]));
  }

  lemma CommittedOk(s: State)
    requires Ok(s)
    ensures Ok(s.(log := s.log + [Committed(Activated)]))
  {
    OrderlyAppend(s.log, Committed(Activated));
    UncommittedAppend(s.log, Committed(Activated));
  }

  lemma MarkedLog(s: State, r: Run)
    ensures Mark(s, r, Durable.Acked).log == s.log + [Marked(r)] && Mark(s, r, Durable.Acked).pending == s.pending
  {
  }

  lemma DurablePhaseOk(s: State, x: Script, d: Answers)
    requires Ok(s)
    ensures Ok(DurablePhase(s, x, d).state)
  {
    hide Ok, BeforeGateway, Attempt, MarkManual, Commit, Flush, Rollback;
    BeforeGatewayOk(s, x);
    FlushOk(s, TokenRow);
    var token := Flush(s, TokenRow);
    BeforeGatewayOk(token, x);
    FlushOk(token, RouteRow);
    var flushed := Flush(token, RouteRow);
    BeforeGatewayOk(flushed, x);
    CommitOk(flushed, Paid, d.first);
    var after := Commit(flushed, Paid, d.first);
    AttemptOk(after, d);
    BeforeGatewayOk(after, x);
    RollbackOk(after);
    MarkManualOk(Rollback(after), x);
  }

  /** The durable purchase keeps the order of its records as the other composition does: over every
      fault trace FAILED only with a clean business session, SUCCEEDED only with the activation,
      PENDING_MANUAL only after its business commit. */
  lemma DurableRecordsFollowBusiness(x: Script, d: Answers)
    ensures Orderly(ConfirmWith(x, d).state.log)
  {
    hide Commit, Prepare, DurablePhase;
    if AtCheckpoint(x) {
      StartOk();
      CommitOk(START, Paid, x.pay);
      PrepareOk(Commit(START, Paid, x.pay), x);
      DurablePhaseOk(Prepare(Commit(START, Paid, x.pay), x).state, x, d);
    } else {
      RunRecordsFollowBusiness(x);
    }
  }

  lemma StartOk()
    ensures Ok(START)
  {
  }

  // ------------------------------------------------- what the outcomes mean

  /** Routes and intent were flushed and their commit was tried. */
  predicate TriesFirst(x: Script, d: Answers) {
    AtCheckpoint(x) && x.locked && !d.blocked && d.token && d.route
  }

  /** What the handler before the gateway leaves. */
  ghost predicate GaveUp(s: State, e: State, x: Script) {
    && (e.run.FAILED? <==> x.disabling.DisableWorks? && x.markInStep.Lands())
    && (e.run.FAILED? ==> e.user.Disabled?) && !e.gatewayApplied && e.saved == s.saved
    && (e.business.PurchaseFailed? <==> x.disabling.DisableWorks? && !x.markInStep.Crashes() && x.failure.Lands())
    && (Committed(Activated) in e.log <==> Committed(Activated) in s.log)
  }

  lemma BeforeGatewayShape(s: State, x: Script)
    requires s.user.Enabled? && s.run.RUNNING? && s.business.Paid? && !s.gatewayApplied
    ensures GaveUp(s, BeforeGateway(s, x).state, x)
  {
    hide Commit, CompensateUser;
    CompensateShape(Rollback(s), x);
    var c := CompensateUser(Rollback(s), x).state;
    CommitShape(c, ReviewPending, x.manual);
    CommitShape(c, PurchaseFailed, x.failure);
  }

  lemma CompensateShape(s: State, x: Script)
    requires s.user.Enabled? && s.run.RUNNING? && s.pending == {}
    ensures var c := CompensateUser(s, x);
            && c.state.pending == {} && c.state.saved == s.saved && c.state.business == s.business
            && c.state.gatewayApplied == s.gatewayApplied
            && (c.state.run.FAILED? <==> x.disabling.DisableWorks? && x.markInStep.Lands())
            && (c.state.run.FAILED? ==> c.state.user.Disabled?)
            && (c.ended.Manual? <==> x.disabling.DisableRaises?)
            && (c.ended.Raised? <==> x.disabling.DisableWorks? && !x.markInStep.Crashes())
            && (Committed(Activated) in c.state.log <==> Committed(Activated) in s.log)
  {
  }

  /** What the phase after the checkpoint leaves. */
  ghost predicate EndsWell(s: State, x: Script, d: Answers) {
    var tries := x.locked && !d.blocked && d.token && d.route;
    && (s.run.FAILED? ==> !s.user.Enabled? && !s.gatewayApplied)
    && (s.business.PurchaseFailed? && s.saved != {} <==>
        && tries && d.first == Durable.LostLanded && d.answer.SaysAbsent?
        && x.disabling.DisableWorks? && !x.markInStep.Crashes() && x.failure.Lands())
    && (Committed(Activated) in s.log <==>
        tries && d.first.Acked? && d.claimed.Acked? && d.projection.Confirmed? && d.finalize.Lands())
    && (Committed(Activated) in s.log ==>
        s.business.Activated? && s.run.SUCCEEDED? && s.user.Enabled? && s.gatewayApplied && EVERYTHING <= s.saved)
  }

  lemma DurablePhaseShape(s: State, x: Script, d: Answers)
    requires Fresh(s) && s.user.Enabled? && s.pending == {EndpointRow, CredentialRow} && s.run.RUNNING?
    ensures EndsWell(DurablePhase(s, x, d).state, x, d)
  {
    hide BeforeGateway, AfterFirst, Commit;
    BeforeGatewayShape(s, x);
    var token := Flush(s, TokenRow);
    BeforeGatewayShape(token, x);
    var flushed := Flush(token, RouteRow);
    BeforeGatewayShape(flushed, x);
    CommitShape(flushed, Paid, d.first);
    if x.locked && !d.blocked && d.token && d.route {
      AfterFirstShape(Commit(flushed, Paid, d.first), x, d);
    }
  }

  lemma AfterFirstShape(s: State, x: Script, d: Answers)
    requires x.locked && !d.blocked && d.token && d.route
    requires s.business.Paid? && !s.gatewayApplied && s.user.Enabled? && s.run.RUNNING?
    requires s.saved == if d.first.Lands() then EVERYTHING else {}
    requires Committed(Activated) !in s.log
    ensures EndsWell(AfterFirst(s, x, d).state, x, d)
  {
    hide BeforeGateway, Commit;
    BeforeGatewayShape(s, x);
    CommitShape(Rollback(s), ReviewPending, x.manual);
  }

  lemma CheckpointShape(x: Script)
    requires AtCheckpoint(x)
    ensures var s := Prepare(Commit(START, Paid, x.pay), x).state;
            && Fresh(s) && s.user.Enabled? && s.pending == {EndpointRow, CredentialRow} && s.run.RUNNING?
  {
  }

  /** Without a checkpoint nothing was committed after the payment. */
  lemma BeforeCheckpoint(x: Script)
    requires !AtCheckpoint(x)
    ensures var s := Confirm(x).state;
            && (s.run.FAILED? ==> !s.user.Enabled? && !s.gatewayApplied)
            && !(s.business.PurchaseFailed? && s.saved != {}) && Committed(Activated) !in s.log
  {
    hide Prepare, LockedPhase, Commit;
    ConfirmShape(x);
  }

  lemma ConfirmWithShape(x: Script, d: Answers)
    ensures AtCheckpoint(x) ==> EndsWell(ConfirmWith(x, d).state, x, d)
    ensures !AtCheckpoint(x) ==> ConfirmWith(x, d) == Confirm(x)
  {
    hide Prepare, DurablePhase, Commit, EndsWell;
    if AtCheckpoint(x) {
      CheckpointShape(x);
      DurablePhaseShape(Prepare(Commit(START, Paid, x.pay), x).state, x, d);
    }
  }

  /** The durable purchase keeps what the other composition does not (FailedWithEnabledUser): whenever
      its run is FAILED, no accounting user is left enabled and the gateway was not applied. */
  lemma FailedIsCompensated(x: Script, d: Answers)
    ensures var s := ConfirmWith(x, d).state;
            s.run.FAILED? ==> !s.user.Enabled? && !s.gatewayApplied
  {
    hide Confirm, ConfirmWith, AtCheckpoint;
    ConfirmWithShape(x, d);
    if !AtCheckpoint(x) {
      BeforeCheckpoint(x);
    }
  }

  /** A failed purchase keeps its rows exactly when the first commit landed and the observer denied
      it. */
  lemma DurableFailureKeepsRowsIff(x: Script, d: Answers)
    ensures var s := ConfirmWith(x, d).state;
            s.business.PurchaseFailed? && s.saved != {} <==>
            && TriesFirst(x, d) && d.first == Durable.LostLanded && d.answer.SaysAbsent?
            && x.disabling.DisableWorks? && !x.markInStep.Crashes() && x.failure.Lands()
  {
    hide Confirm, ConfirmWith, AtCheckpoint;
    ConfirmWithShape(x, d);
    if !AtCheckpoint(x) {
      BeforeCheckpoint(x);
    }
  }

  /** The purchase is activated exactly when its first commit was acknowledged, its projection confirmed
      and its finalization landed; then every row is durable, the user is enabled and the run has
      succeeded. */
  lemma DurablyActivatedIff(x: Script, d: Answers)
    ensures var s := ConfirmWith(x, d).state;
            && (Committed(Activated) in s.log <==>
                  TriesFirst(x, d) && d.first.Acked? && d.claimed.Acked? && d.projection.Confirmed? && d.finalize.Lands())
            && (Committed(Activated) in s.log ==>
                  s.business.Activated? && s.run.SUCCEEDED? && s.user.Enabled? && s.gatewayApplied && EVERYTHING <= s.saved)
  {
    hide Confirm, ConfirmWith, AtCheckpoint;
    ConfirmWithShape(x, d);
    if !AtCheckpoint(x) {
      BeforeCheckpoint(x);
    }
  }

  // ---------------------------------------------------------- how it ends

  /** The purchase goes to the handler before the gateway. */
  predicate GivesUp(x: Script, d: Answers) {
    !(x.locked && !d.blocked && d.token && d.route) || (d.first.Raises() && d.answer.SaysAbsent?)
  }

  /** Nobody can tell what became of the first commit. */
  predicate Unclassified(x: Script, d: Answers) {
    !GivesUp(x, d) && d.first.Raises() && d.answer.SaysUnknown?
  }

  /** How a purchase ends after its checkpoint, by its faults alone: it returns when the projection is
      done or left to recovery, asks for review when the user cannot be disabled or the first commit
      not classified, and raises when it was compensated or when a record could not be written. */
  lemma DurableEndings(x: Script, d: Answers)
    requires AtCheckpoint(x)
    ensures var e := ConfirmWith(x, d).ended;
            var attempts := !GivesUp(x, d) && d.first.Acked? && d.claimed.Acked?;
            && (e.Continue? <==>
                  || (!GivesUp(x, d) && d.first.Raises() && d.answer.SaysLanded?)
                  || (attempts && d.projection.NotConfirmed?)
                  || (attempts && d.projection.Confirmed? && (d.finalize.Acked? || (d.finalize.Raises() && d.observed))))
            && (e.Manual? <==>
                  && ((GivesUp(x, d) && x.disabling.DisableRaises?) || Unclassified(x, d))
                  && x.manual.Acked? && !x.markAtEnd.Crashes())
            && (e.Raised? <==>
                  || (GivesUp(x, d) && x.disabling.DisableWorks? && !x.markInStep.Crashes() && !x.failure.Crashes())
                  || (((GivesUp(x, d) && x.disabling.DisableRaises?) || Unclassified(x, d)) && x.manual.Raises())
                  || (!GivesUp(x, d) && d.first.Acked? && d.claimed.Raises())
                  || (attempts && d.projection.Confirmed? && d.finalize.Raises() && !d.observed))
  {
    hide Prepare, Commit, Rollback, Mark, Flush;
  }
}
