/** The nine-step provisioning saga around a paid purchase, with its two phases, compensations and
    commits (backend/app/domain/provisioning.py, backend/app/services.py).

    Every provider call may raise, every compensation may raise as well, and every write of the
    database or of the run store may be lost. The state carries a trace of what happened. */
module ProvisioningSaga {
  import opened Durable

  // ------------------------------------------------------------------ state

  /** What a step flushes into the open transaction. */
  datatype Change = EndpointRow | CredentialRow | RouteRow | TokenRow

  /** The durable order and subscription. */
  datatype Business = Unpaid | Rejected | Paid | ReviewPending | PurchaseFailed | Activated

  datatype Run = NoRun | RUNNING | FAILED | SUCCEEDED | PENDING_MANUAL

  /** The accounting user that this run created, if it did. */
  datatype User = Absent | Enabled | Disabled

  datatype Event =
    | Flushed(change: Change)
    | RolledBack
    | Committed(business: Business)
    | Marked(run: Run)

  datatype State = State(
    pending: set<Change>,
    saved: set<Change>,
    business: Business,
    run: Run,
    user: User,
    gatewayApplied: bool,
    log: seq<Event>)

  const START := State({}, {}, Unpaid, NoRun, Absent, false, [])

  function Flush(s: State, c: Change): State {
    s.(pending := s.pending + {c}, log := s.log + [Flushed(c)])
  }

  function Rollback(s: State): State {
    s.(pending := {}, log := s.log + [RolledBack])
  }

  /** A business transaction: what is flushed goes with it, and an exception rolls back. */
  function Commit(s: State, b: Business, c: Durable.Commit): State {
    var s' := if c.Lands() then s.(business := b, saved := s.saved + s.pending, log := s.log + [Committed(b)]) else s;
    if c.Acked? then s'.(pending := {}) else if c.Raises() then Rollback(s') else s'
  }

  /** A terminal status, through the session of the run store. */
  function Mark(s: State, r: Run, c: Durable.Commit): State {
    if c.Lands() then s.(run := r, log := s.log + [Marked(r)]) else s
  }

  // ------------------------------------------------------------ environment

  datatype Capacity = Enough | Exceeded | CapacityRaises

  datatype Forwarding = Forwarded | ForwarderRaises(restored: bool)

  /** How `create_user` ends; `made` says whether a user exists afterwards. */
  datatype Creation =
    | UserCreated
    | ContractViolated        // created, with an unusable identity
    | NoSideEffect
    | Ambiguous(made: bool)
    | CreatedError            // raised, and provably created
    | Untyped(made: bool)     // any other exception

  datatype Disabling = DisableWorks | DisableRaises(tookEffect: bool)

  datatype Script = Script(
    gate: Capacity,
    reject: Durable.Commit,
    payment: bool,
    pay: Durable.Commit,
    start: Durable.Commit,
    capacity: Capacity,
    allocate: bool,
    tenant: bool,
    credentials: bool,
    forwarderState: bool,
    forwarder: Forwarding,
    creation: Creation,
    disabling: Disabling,
    locked: bool,
    gateway: bool,
    subscription: bool,
    activate: Durable.Commit,
    manual: Durable.Commit,
    failure: Durable.Commit,
    markInStep: Durable.Commit,
    markAtEnd: Durable.Commit)

  /** How control leaves a stage. */
  datatype Ended = Continue | Manual | Raised | Crashed

  datatype Stage = Stage(state: State, ended: Ended)

  // ---------------------------------------------------------------- phase A

  /** `rollback_database`, then `_failed`, then the exception goes on. */
  function FailStep(s: State, x: Script): Stage {
    Stage(Mark(Rollback(s), FAILED, x.markInStep), if x.markInStep.Crashes() then Crashed else Raised)
  }

  function WithDisabled(s: State, d: Disabling): State {
    if (d.DisableWorks? || d.tookEffect) && s.user.Enabled? then s.(user := Disabled) else s
  }

  /** `_compensate_created_accounting_user`. */
  function CompensateUser(s: State, x: Script): Stage {
    var s' := WithDisabled(s, x.disabling);
    if x.disabling.DisableRaises? then Stage(s', Manual) else FailStep(s', x)
  }

  /** CREATE_ACCOUNTING_USER. */
  function CreateUser(s: State, x: Script): Stage {
    match x.creation
    case UserCreated => Stage(s.(user := Enabled), Continue)
    case NoSideEffect => FailStep(s, x)
    case Ambiguous(made) => Stage(if made then s.(user := Enabled) else s, Manual)
    case ContractViolated => CompensateUser(s.(user := Enabled), x)
    case CreatedError => CompensateUser(s.(user := Enabled), x)
    case Untyped(made) => CompensateUser(if made then s.(user := Enabled) else s, x)
  }

  /** STORE_CREDENTIALS and APPLY_FORWARDER. */
  function Forward(s: State, x: Script): Stage {
    var stored := Flush(s, CredentialRow);
    if !x.credentials then FailStep(stored, x)
    else if !x.forwarderState then Stage(stored, Raised)
    else if x.forwarder.ForwarderRaises? then
      if x.forwarder.restored then FailStep(stored, x) else Stage(stored, Manual)
    else CreateUser(stored, x)
  }

  /** `provision_prepare`: steps 1 to 6. */
  function Prepare(s: State, x: Script): Stage {
    var started := if x.start.Lands() then s.(run := RUNNING, log := s.log + [Marked(RUNNING)]) else s;
    if !x.start.Acked? then Stage(started, if x.start.Raises() then Raised else Crashed)
    else if x.capacity.CapacityRaises? then Stage(started, Raised)
    else if x.capacity.Exceeded? then FailStep(started, x)
    else
      var reserved := Flush(started, EndpointRow);
      if !x.allocate then FailStep(reserved, x)
      else if !x.tenant then Stage(reserved, Manual)
      else Forward(reserved, x)
  }

  // ---------------------------------------------------------------- phase B

  /** `provision_apply_gateway`: steps 7 to 9, with the lock held. */
  function ApplyGateway(s: State, x: Script): Stage {
    var routed := Flush(s, RouteRow);
    if !x.gateway then
      var s' := WithDisabled(routed, x.disabling);
      if x.disabling.DisableRaises? then Stage(s', Manual) else FailStep(s', x)
    else
      var applied := routed.(gatewayApplied := true);
      var issued := Flush(applied, TokenRow);
      if !x.subscription then FailStep(issued, x) else Stage(issued, Continue)
  }

  // --------------------------------------------------------- the paid order

  function Signal(c: Durable.Commit, otherwise: Ended): Ended {
    if c.Acked? then otherwise else if c.Raises() then Raised else Crashed
  }

  /** `_mark_pending_manual`: business rows first, then the best-effort status of the run. */
  function MarkManual(s: State, x: Script): Stage {
    var s' := Commit(s, ReviewPending, x.manual);
    if !x.manual.Acked? then Stage(s', Signal(x.manual, Manual))
    else Stage(Mark(s', PENDING_MANUAL, x.markAtEnd), if x.markAtEnd.Crashes() then Crashed else Manual)
  }

  /** A failure of phase A or of the lock: roll back, record the failed purchase, go on raising. */
  function FailPurchase(s: State, x: Script): Stage {
    Stage(Commit(s, PurchaseFailed, x.failure), if x.failure.Crashes() then Crashed else Raised)
  }

  /** The last handler: the failed purchase first, then the FAILED run. */
  function FailAndMark(s: State, x: Script): Stage {
    var failed := FailPurchase(s, x);
    if !x.failure.Acked? then failed
    else Stage(Mark(failed.state, FAILED, x.markAtEnd), if x.markAtEnd.Crashes() then Crashed else Raised)
  }

  /** The span of the gateway lock. */
  function LockedPhase(s: State, x: Script): Stage {
    var b := ApplyGateway(s, x);
    match b.ended
    case Crashed => b
    case Raised => FailAndMark(Rollback(b.state), x)
    case Manual =>
      var m := MarkManual(b.state, x);
      if m.ended.Raised? then FailAndMark(m.state, x) else m
    case Continue =>
      var activated := Commit(b.state, Activated, x.activate);
      if x.activate.Acked? then
        Stage(Mark(activated, SUCCEEDED, x.markAtEnd), if x.markAtEnd.Crashes() then Crashed else Continue)
      else if x.activate.Crashes() then Stage(activated, Crashed)
      else FailAndMark(activated, x)
  }

  /** GET_LOCK failed: the same compensation as a failed APPLY_GATEWAY. */
  function Unlocked(s: State, x: Script): Stage {
    var s' := WithDisabled(Rollback(s), x.disabling);
    if x.disabling.DisableRaises? then MarkManual(s', x)
    else
      var marked := Mark(s', FAILED, x.markInStep);
      if x.markInStep.Acked? then FailPurchase(marked, x)
      else Stage(marked, if x.markInStep.Crashes() then Crashed else Raised)
  }

  /** After payment: both phases and every terminal record. */
  function Provision(s: State, x: Script): Stage {
    var a := Prepare(s, x);
    match a.ended
    case Crashed => a
    case Raised => FailPurchase(Rollback(a.state), x)
    case Manual => MarkManual(a.state, x)
    case Continue => if x.locked then LockedPhase(a.state, x) else Unlocked(a.state, x)
  }

  /** `confirm_payment_and_provision` for a purchase: capacity before payment, payment before the saga. */
  function Confirm(x: Script): Stage {
    match x.gate
    case CapacityRaises => Stage(START, Raised)
    case Exceeded => Stage(Commit(START, Rejected, x.reject), if x.reject.Crashes() then Crashed else Raised)
    case Enough =>
      if !x.payment then Stage(START, Raised)
      else
        var paid := Commit(START, Paid, x.pay);
        if x.pay.Acked? then Provision(paid, x) else Stage(paid, Signal(x.pay, Continue))
  }

  // ----------------------------------------------------- order over a trace

  /** What a trace leaves flushed but uncommitted. */
  function Uncommitted(log: seq<Event>): set<Change> {
    if log == [] then {} else AfterEvent(Uncommitted(log[..|log| - 1]), log[|log| - 1])
  }

  function AfterEvent(uncommitted: set<Change>, e: Event): set<Change> {
    match e
    case Flushed(c) => uncommitted + {c}
    case RolledBack => {}
    case Committed(_) => {}
    case Marked(_) => uncommitted
  }

  predicate Justified(log: seq<Event>, k: nat)
    requires k < |log|
  {
    log[k].Marked? ==>
      && (log[k].run.FAILED? ==> Uncommitted(log[..k]) == {})
      && (log[k].run.SUCCEEDED? ==> Committed(Activated) in log[..k])
      && (log[k].run.PENDING_MANUAL? ==> Committed(ReviewPending) in log[..k])
  }

  /** No terminal status runs ahead of the business state it reports. */
  predicate Orderly(log: seq<Event>) {
    forall k | 0 <= k < |log| :: Justified(log, k)
  }

  /** The trace is orderly and agrees with the session. */
  predicate Ok(s: State) {
    Orderly(s.log) && Uncommitted(s.log) <= s.pending
  }

  lemma OrderlyAppend(log: seq<Event>, e: Event)
    requires Orderly(log) && Justified(log + [e], |log|)
    ensures Orderly(log + [e])
  {
    var l := log + [e];
    forall k | 0 <= k < |l|
      ensures Justified(l, k)
    {
      if k < |log| {
        assert Justified(log, k);
        assert l[..k] == log[..k] && l[k] == log[k];
      }
    }
  }

  lemma UncommittedAppend(log: seq<Event>, e: Event)
    ensures Uncommitted(log + [e]) == AfterEvent(Uncommitted(log), e)
  {
  }

  lemma FlushOk(s: State, c: Change)
    requires Ok(s)
    ensures Ok(Flush(s, c))
  {
    OrderlyAppend(s.log, Flushed(c));
    UncommittedAppend(s.log, Flushed(c));
  }

  lemma RollbackOk(s: State)
    requires Ok(s)
    ensures Ok(Rollback(s)) && Rollback(s).pending == {}
  {
    OrderlyAppend(s.log, RolledBack);
    UncommittedAppend(s.log, RolledBack);
  }

  lemma CommitOk(s: State, b: Business, c: Durable.Commit)
    requires Ok(s)
    ensures Ok(Commit(s, b, c))
    ensures !c.Crashes() ==> Commit(s, b, c).pending == {}
    ensures c.Lands() ==> Committed(b) in Commit(s, b, c).log
  {
    OrderlyAppend(s.log, Committed(b));
    UncommittedAppend(s.log, Committed(b));
    var landed := s.(business := b, saved := s.saved + s.pending, log := s.log + [Committed(b)]);
    assert Committed(b) == landed.log[|s.log|];
    RollbackOk(landed);
    RollbackOk(s);
    var rolled := Rollback(landed).log;
    assert rolled[|s.log|] == Committed(b);
  }

  lemma MarkOk(s: State, r: Run, c: Durable.Commit)
    requires Ok(s)
    requires r.FAILED? ==> s.pending == {}
    requires r.SUCCEEDED? ==> Committed(Activated) in s.log
    requires r.PENDING_MANUAL? ==> Committed(ReviewPending) in s.log
    ensures Ok(Mark(s, r, c))
  {
    var l := s.log + [Marked(r)];
    assert l[..|s.log|] == s.log;
    OrderlyAppend(s.log, Marked(r));
    UncommittedAppend(s.log, Marked(r));
  }

  // ------------------------------------------------------- order of stages

  lemma FailStepOk(s: State, x: Script)
    requires Ok(s)
    ensures Ok(FailStep(s, x).state)
  {
    RollbackOk(s);
    MarkOk(Rollback(s), FAILED, x.markInStep);
  }

  lemma CompensateUserOk(s: State, x: Script)
    requires Ok(s)
    ensures Ok(CompensateUser(s, x).state)
  {
    FailStepOk(WithDisabled(s, x.disabling), x);
  }

  lemma CreateUserOk(s: State, x: Script)
    requires Ok(s)
    ensures Ok(CreateUser(s, x).state)
  {
    FailStepOk(s, x);
    CompensateUserOk(s, x);
    CompensateUserOk(s.(user := Enabled), x);
  }

  lemma PrepareOk(s: State, x: Script)
    requires Ok(s)
    ensures Ok(Prepare(s, x).state)
  {
    hide CreateUser, FailStep, Ok;
    MarkOkAny(s, x.start);
    var started := Mark(s, RUNNING, x.start);
    FailStepOk(started, x);
    FlushOk(started, EndpointRow);
    var reserved := Flush(started, EndpointRow);
    FailStepOk(reserved, x);
    FlushOk(reserved, CredentialRow);
    var stored := Flush(reserved, CredentialRow);
    FailStepOk(stored, x);
    CreateUserOk(stored, x);
  }

  lemma MarkOkAny(s: State, c: Durable.Commit)
    requires Ok(s)
    ensures Ok(Mark(s, RUNNING, c))
  {
    MarkOk(s, RUNNING, c);
  }

  lemma ApplyGatewayOk(s: State, x: Script)
    requires Ok(s)
    ensures Ok(ApplyGateway(s, x).state)
  {
    hide FailStep, Ok;
    FlushOk(s, RouteRow);
    var routed := Flush(s, RouteRow);
    assert Ok(WithDisabled(routed, x.disabling)) && Ok(routed.(gatewayApplied := true)) by {
      SameTrace(routed, WithDisabled(routed, x.disabling));
      SameTrace(routed, routed.(gatewayApplied := true));
    }
    FailStepOk(WithDisabled(routed, x.disabling), x);
    FlushOk(routed.(gatewayApplied := true), TokenRow);
    FailStepOk(Flush(routed.(gatewayApplied := true), TokenRow), x);
  }

  lemma SameTrace(s: State, t: State)
    requires Ok(s) && t.log == s.log && t.pending == s.pending
    ensures Ok(t)
  {
  }

  lemma MarkManualOk(s: State, x: Script)
    requires Ok(s)
    ensures Ok(MarkManual(s, x).state)
    ensures MarkManual(s, x).ended.Raised? ==> MarkManual(s, x).state.pending == {}
  {
    hide Ok, Commit, Mark;
    CommitOk(s, ReviewPending, x.manual);
    if x.manual.Acked? {
      MarkOk(Commit(s, ReviewPending, x.manual), PENDING_MANUAL, x.markAtEnd);
    }
  }

  lemma FailAndMarkOk(s: State, x: Script)
    requires Ok(s)
    ensures Ok(FailAndMark(s, x).state) && Ok(FailPurchase(s, x).state)
  {
    hide Ok, Commit, Mark;
    CommitOk(s, PurchaseFailed, x.failure);
    if x.failure.Acked? {
      MarkOk(Commit(s, PurchaseFailed, x.failure), FAILED, x.markAtEnd);
    }
  }

  lemma LockedPhaseOk(s: State, x: Script)
    requires Ok(s)
    ensures Ok(LockedPhase(s, x).state)
  {
    hide Ok, Commit, Mark, ApplyGateway, MarkManual, FailAndMark, Rollback;
    ApplyGatewayOk(s, x);
    var b := ApplyGateway(s, x);
    match b.ended {
      case Crashed =>
      case Raised =>
        RollbackOk(b.state);
        FailAndMarkOk(Rollback(b.state), x);
      case Manual =>
        MarkManualOk(b.state, x);
        FailAndMarkOk(MarkManual(b.state, x).state, x);
      case Continue =>
        CommitOk(b.state, Activated, x.activate);
        if x.activate.Acked? {
          MarkOk(Commit(b.state, Activated, x.activate), SUCCEEDED, x.markAtEnd);
        }
        FailAndMarkOk(Commit(b.state, Activated, x.activate), x);
    }
  }

  lemma UnlockedOk(s: State, x: Script)
    requires Ok(s)
    ensures Ok(Unlocked(s, x).state)
  {
    hide Ok, Commit, Mark, MarkManual, Rollback;
    RollbackOk(s);
    var s' := WithDisabled(Rollback(s), x.disabling);
    SameTrace(Rollback(s), s');
    MarkManualOk(s', x);
    MarkOk(s', FAILED, x.markInStep);
    FailAndMarkOk(Mark(s', FAILED, x.markInStep), x);
  }

  /** Saga ordering, over every fault trace: FAILED is recorded only with nothing left uncommitted in
      the business session, SUCCEEDED only after the activation commit, PENDING_MANUAL only after its
      business commit. */
  lemma RunRecordsFollowBusiness(x: Script)
    ensures Orderly(Confirm(x).state.log)
  {
    hide Commit, Prepare, MarkManual, LockedPhase, Unlocked, FailPurchase, Rollback;
    CommitOk(START, Rejected, x.reject);
    CommitOk(START, Paid, x.pay);
    var paid := Commit(START, Paid, x.pay);
    PrepareOk(paid, x);
    var a := Prepare(paid, x);
    RollbackOk(a.state);
    FailAndMarkOk(Rollback(a.state), x);
    MarkManualOk(a.state, x);
    LockedPhaseOk(a.state, x);
    UnlockedOk(a.state, x);
  }

  // ------------------------------------------------- what the outcomes mean

  /** A run between its phases, before anything was committed by it. */
  predicate Fresh(s: State) {
    s.saved == {} && s.business.Paid? && !s.gatewayApplied && Committed(Activated) !in s.log && Committed(ReviewPending) !in s.log
  }

  /** Phase A commits nothing; it goes on only with an enabled user, and marks the run FAILED only
      without one. */
  predicate PreparedWell(e: Stage) {
    && Fresh(e.state)
    && (e.ended.Continue? ==>
          e.state.user.Enabled? && e.state.pending == {EndpointRow, CredentialRow} && e.state.run.RUNNING?)
    && (e.state.run.FAILED? ==> !e.state.user.Enabled? && (e.ended.Raised? || e.ended.Crashed?))
  }

  lemma PrepareShape(s: State, x: Script)
    requires Fresh(s) && s.pending == {} && s.user.Absent? && s.run.NoRun?
    ensures PreparedWell(Prepare(s, x))
  {
    hide CreateUser;
    var started := Mark(s, RUNNING, x.start);
    CreateUserShape(Flush(Flush(started, EndpointRow), CredentialRow), x);
  }

  lemma CreateUserShape(s: State, x: Script)
    requires Fresh(s) && s.user.Absent? && !s.run.FAILED?
    ensures var e := CreateUser(s, x);
            && Fresh(e.state)
            && (e.ended.Continue? ==> e.state == s.(user := Enabled))
            && (e.state.run.FAILED? ==> !e.state.user.Enabled? && (e.ended.Raised? || e.ended.Crashed?))
  {
  }

  const EVERYTHING := {EndpointRow, CredentialRow, RouteRow, TokenRow}

  /** The gateway was not applied and the user could not be disabled. */
  predicate GatewayUncompensated(x: Script) {
    !x.gateway && x.disabling.DisableRaises?
  }

  /** What the locked phase may leave, besides the order of its records. */
  ghost predicate LockedWell(s: State, x: Script, e: Stage) {
    && (Committed(Activated) in e.state.log <==> x.gateway && x.subscription && x.activate.Lands())
    && (Committed(Activated) in e.state.log ==> e.state.gatewayApplied && e.state.user.Enabled? && EVERYTHING <= e.state.saved)
    && (e.ended.Manual? ==> Committed(Activated) !in e.state.log && e.state.business.ReviewPending?)
    && (e.ended.Continue? ==> e.state.business.Activated? && e.state.user.Enabled? && e.state.gatewayApplied)
    && (e.state.business.PurchaseFailed? ==>
          (e.state.saved == {} <==>
           !(x.gateway && x.subscription && x.activate.Lands()) && !(GatewayUncompensated(x) && x.manual.Lands())))
    && (e.state.run.FAILED? ==>
          (e.state.user.Enabled? <==> x.gateway || (GatewayUncompensated(x) && !x.disabling.tookEffect)))
  }

  lemma LockedPhaseShape(s: State, x: Script)
    requires Fresh(s) && s.user.Enabled? && s.pending == {EndpointRow, CredentialRow} && s.run.RUNNING?
    ensures LockedWell(s, x, LockedPhase(s, x))
  {
    hide Commit;
    var b := ApplyGateway(s, x);
    GatewayShape(s, x);
    CommitShape(b.state, ReviewPending, x.manual);
    CommitShape(b.state, Activated, x.activate);
    CommitShape(Rollback(b.state), PurchaseFailed, x.failure);
    CommitShape(Commit(b.state, ReviewPending, x.manual), PurchaseFailed, x.failure);
    CommitShape(Commit(b.state, Activated, x.activate), PurchaseFailed, x.failure);
  }

  lemma CommitShape(s: State, b: Business, c: Durable.Commit)
    ensures var s' := Commit(s, b, c);
            && s'.user == s.user && s'.run == s.run && s'.gatewayApplied == s.gatewayApplied
            && s'.business == (if c.Lands() then b else s.business)
            && s'.saved == (if c.Lands() then s.saved + s.pending else s.saved)
            && s'.pending == (if c.Crashes() then s.pending else {})
            && (forall e: Event | e.Committed? :: e in s'.log <==> e in s.log || (c.Lands() && e == Committed(b)))
  {
  }

  lemma GatewayShape(s: State, x: Script)
    requires Fresh(s) && s.user.Enabled? && s.pending == {EndpointRow, CredentialRow} && s.run.RUNNING?
    ensures var b := ApplyGateway(s, x);
            && Fresh(b.state.(gatewayApplied := false))
            && (b.ended.Continue? <==> x.gateway && x.subscription)
            && (b.ended.Manual? <==> GatewayUncompensated(x))
            && (b.ended.Continue? ==> b.state.pending == EVERYTHING && b.state.run.RUNNING?)
            && (b.ended.Manual? ==> b.state.pending == {EndpointRow, CredentialRow, RouteRow} && b.state.run.RUNNING?)
            && (b.ended.Raised? || b.ended.Crashed? ==> b.state.pending == {})
            && (b.state.user.Enabled? <==> x.gateway || (GatewayUncompensated(x) && !x.disabling.tookEffect))
            && b.state.gatewayApplied == x.gateway
  {
  }

  // -------------------------------------------------------------- theorems

  /** The saga got a checkpoint from phase A. */
  predicate Reached(x: Script) {
    && x.gate.Enough? && x.payment && x.pay.Acked? && x.start.Acked? && x.capacity.Enough? && x.allocate && x.tenant
    && x.credentials && x.forwarderState && x.forwarder.Forwarded? && x.creation.UserCreated?
  }

  lemma CheckpointIff(s: State, x: Script)
    ensures Prepare(s, x).ended.Continue? <==>
            && x.start.Acked? && x.capacity.Enough? && x.allocate && x.tenant
            && x.credentials && x.forwarderState && x.forwarder.Forwarded? && x.creation.UserCreated?
  {
  }

  /** A purchase that ends for manual review was never activated; one that is activated commits all
      its rows at once, over an applied gateway and an enabled user. */
  lemma ManualNeverActivates(x: Script)
    ensures var e := Confirm(x);
            && (e.ended.Manual? ==> Committed(Activated) !in e.state.log && e.state.business.ReviewPending?)
            && (Committed(Activated) in e.state.log <==>
                  Reached(x) && x.locked && x.gateway && x.subscription && x.activate.Lands())
            && (Committed(Activated) in e.state.log ==>
                  e.state.gatewayApplied && e.state.user.Enabled? && EVERYTHING <= e.state.saved)
  {
    hide Prepare, LockedPhase, Commit;
    ConfirmShape(x);
  }

  lemma ConfirmShape(x: Script)
    ensures var paid := Commit(START, Paid, x.pay);
            var a := Prepare(paid, x);
            && (x.pay.Acked? ==> PreparedWell(a))
            && (x.pay.Acked? && a.ended.Continue? ==> LockedWell(a.state, x, LockedPhase(a.state, x)))
            && (a.ended.Continue? <==>
                && x.start.Acked? && x.capacity.Enough? && x.allocate && x.tenant
                && x.credentials && x.forwarderState && x.forwarder.Forwarded? && x.creation.UserCreated?)
    ensures !x.pay.Acked? && x.gate.Enough? ==> Committed(Activated) !in Confirm(x).state.log
    ensures Committed(Activated) !in Commit(START, Rejected, x.reject).log
    ensures forall s: State, b, c | b != Activated && Committed(Activated) !in s.log ::
              Committed(Activated) !in Commit(s, b, c).log
    ensures forall s: State, b, c ::
              && Commit(s, b, c).user == s.user && Commit(s, b, c).run == s.run
              && Commit(s, b, c).gatewayApplied == s.gatewayApplied
              && Commit(s, b, c).business == (if c.Lands() then b else s.business)
              && Commit(s, b, c).saved == (if c.Lands() then s.saved + s.pending else s.saved)
  {
    hide Prepare, LockedPhase;
    var paid := Commit(START, Paid, x.pay);
    CheckpointIff(paid, x);
    if x.pay.Acked? {
      PrepareShape(paid, x);
      if Prepare(paid, x).ended.Continue? {
        LockedPhaseShape(Prepare(paid, x).state, x);
      }
    }
  }

  /** The FAILED record of a run whose gateway had been applied: from the step itself, or from the last
      handler. */
  predicate FailedAfterGateway(x: Script) {
    && x.gateway
    && (if x.subscription then x.activate.Raises() && x.failure.Acked? && x.markAtEnd.Lands()
        else x.markInStep.Lands() || (!x.markInStep.Crashes() && x.failure.Acked? && x.markAtEnd.Lands()))
  }

  /** The FAILED record of a run whose gateway failed, whose user could not be disabled, and whose
      request for manual review was lost. */
  predicate FailedWithoutGateway(x: Script) {
    && !x.gateway && x.disabling == DisableRaises(false)
    && x.manual.Raises() && x.failure.Acked? && x.markAtEnd.Lands()
  }

  /** A run is recorded as FAILED and leaves an enabled accounting user behind in exactly two families
      of faults: after an applied gateway, and after a gateway failure with neither a disabled user nor
      a recorded review. */
  lemma FailedWithEnabledUser(x: Script)
    ensures var s := Confirm(x).state;
            && (s.run.FAILED? && s.user.Enabled? <==>
                  Reached(x) && x.locked && (FailedAfterGateway(x) || FailedWithoutGateway(x)))
            && (s.run.FAILED? && s.user.Enabled? && !s.gatewayApplied <==>
                  Reached(x) && x.locked && FailedWithoutGateway(x))
  {
    hide Prepare, LockedPhase, Commit;
    ConfirmShape(x);
    if Reached(x) && x.locked {
      LockedPhaseFails(Prepare(Commit(START, Paid, x.pay), x).state, x);
    }
  }

  lemma LockedPhaseFails(s: State, x: Script)
    requires Fresh(s) && s.user.Enabled? && s.pending == {EndpointRow, CredentialRow} && s.run.RUNNING?
    ensures var e := LockedPhase(s, x).state;
            && (e.run.FAILED? && e.user.Enabled? <==> FailedAfterGateway(x) || FailedWithoutGateway(x))
            && (e.run.FAILED? && e.user.Enabled? ==> e.gatewayApplied == x.gateway)
  {
  }

  /** A commit of rows landed although the purchase went on to fail: the activation, or the request for
      manual review of phase B. */
  predicate LostAcknowledgement(x: Script) {
    || (x.gateway && x.subscription && x.activate == LostLanded)
    || (GatewayUncompensated(x) && x.manual == LostLanded)
  }

  /** A failed purchase keeps rows of its saga exactly when a commit landed without its
      acknowledgement and the failure landed after it. */
  lemma FailedPurchaseKeepsRowsIff(x: Script)
    ensures var s := Confirm(x).state;
            s.business.PurchaseFailed? && s.saved != {} <==>
            Reached(x) && x.locked && LostAcknowledgement(x) && x.failure.Lands()
  {
    hide Prepare, LockedPhase, Commit;
    ConfirmShape(x);
    if Reached(x) && x.locked {
      LockedPhaseSaves(Prepare(Commit(START, Paid, x.pay), x).state, x);
    }
  }

  lemma LockedPhaseSaves(s: State, x: Script)
    requires Fresh(s) && s.user.Enabled? && s.pending == {EndpointRow, CredentialRow} && s.run.RUNNING?
    ensures var e := LockedPhase(s, x).state;
            e.business.PurchaseFailed? && e.saved != {} <==> LostAcknowledgement(x) && x.failure.Lands()
  {
  }

  /** A script on which nothing goes wrong, as a base for faults. */
  const SMOOTH := Script(
    Enough, Acked, true, Acked, Acked, Enough, true, true, true, true, Forwarded, UserCreated, DisableWorks,
    true, true, true, Acked, Acked, Acked, Acked, Acked)

  /** Two failing runs: an enabled user behind a plain failure, and rows that outlive one. */
  lemma FailuresThatLeaveSomething()
    ensures Confirm(SMOOTH).ended.Continue? && Confirm(SMOOTH).state.run.SUCCEEDED?
    ensures var s := Confirm(SMOOTH.(gateway := false, disabling := DisableRaises(false), manual := LostAbsent)).state;
            s.run.FAILED? && s.user.Enabled? && !s.gatewayApplied
    ensures var s := Confirm(SMOOTH.(activate := LostLanded)).state;
            s.business.PurchaseFailed? && s.run.FAILED? && s.saved == EVERYTHING
  {
  }

  /** No write of the database or of the run store fails. */
  predicate WritesWork(x: Script) {
    && x.reject.Acked? && x.pay.Acked? && x.start.Acked? && x.activate.Acked? && x.manual.Acked? && x.failure.Acked?
    && x.markInStep.Acked? && x.markAtEnd.Acked?
  }

  /** With working writes every run that starts ends in a terminal status, except the two steps whose
      exceptions no handler of the saga covers. */
  lemma LeftRunningExactly(x: Script)
    requires WritesWork(x)
    ensures Confirm(x).state.run.RUNNING? <==>
            && x.gate.Enough? && x.payment
            && (|| x.capacity.CapacityRaises?
                || (x.capacity.Enough? && x.allocate && x.tenant && x.credentials && !x.forwarderState))
  {
  }
}
