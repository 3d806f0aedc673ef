/** What the seven engines promise: every decision is traceable to a named rule
    (go/rz/rules.go:7-10), and a customer is touched under exactly these conditions
    (go/rz/engines.go). */
module Policy {
  import opened Types
  import opened Classify
  import opened Rules
  import opened Engines
  import opened Loop
  import opened Runner
  import opened Bounds
  import Execution

  /** The flows of the retry engines. */
  predicate RetryFlow(t: Task) { t.flow.FailedSubscription? || t.flow.MandateRetry? }

  // ---------- when a customer is touched ----------

  /** The retry budget, the touch cap and the suppressions leave room for a retry. */
  predicate MayRetry(p: Tunables, c: Clock, t: Task, attempt: int, touches: int) {
    && IsRetryable(t.reason) && !HasActivePromiseToPay(t.ptpDate, c.now)
    && attempt < p.maxRetryAttempts && touches < p.maxTouchesPerCustomer
  }

  /** Independent of the order in which an engine checks its rules. */
  predicate MayTouch(p: Tunables, c: Clock, t: Task, attempt: int, touches: int) {
    var now := c.Effective();
    match t.flow
    case FailedSubscription => MayRetry(p, c, t, attempt, touches)
    case MandateRetry =>
      && MayRetry(p, c, t, attempt, touches)
      && t.window.Some? && t.window.value.start <= now <= t.window.value.end
      && attempt <= (now - t.window.value.start) / DAY_MS < SequenceLength(p)
    case CheckoutAbandonment =>
      !t.reason.CheckoutError? && t.visits >= 2 && touches < p.checkoutReminderCap && touches < p.maxTouchesPerCustomer
    case B2BReceivables =>
      && !t.reason.DisputedReceivable? && !t.reason.MandateRevoked? && touches < p.maxTouchesPerCustomer
      && 30 <= t.overdueDays && (t.overdueDays < p.receivableTier2Days || t.overdueDays < 2 * p.receivableTier2Days)
    case PaymentDegradation =>
      !t.reason.FraudFlagged? && !t.reason.IssuerDown? && t.successRate != 0.0 && t.successRate < 0.85
    case HinglishVoice =>
      && !t.reason.MandateRevoked? && !t.reason.FraudFlagged? && !IsDoNotCall(t.dnc, now)
      && (t.reason.VoiceUnreachable? || (touches < p.maxVoiceCalls && touches < p.maxTouchesPerCustomer))
    case PromiseToPay =>
      && !t.reason.PtpBroken? && !t.reason.PtpMissed? && !t.reason.FraudFlagged? && p.ptpSupervisorThreshold > 0
      && t.ptpDate.Some? && now != t.ptpDate.value && now >= t.ptpDate.value - DAY_MS
    case OtherFlow(_) => false
  }

  /** A customer is touched exactly when the conditions of the flow hold. */
  lemma TouchedExactlyWhen(p: Tunables, c: Clock, t: Task, attempt: nat, touches: nat)
    ensures Acts(p, c, t, attempt, touches) <==> MayTouch(p, c, t, attempt, touches)
  {
    hide IsDoNotCall;
    if t.flow.MandateRetry? && t.window.Some? && c.Effective() >= t.window.value.start {
      assert DayOffset(c.Effective(), t.window.value) == (c.Effective() - t.window.value.start) / DAY_MS;
    }
  }

  // ---------- every decision is traceable ----------

  /** The condition that a fired rule stands for, and the decision it leads to. */
  predicate Explains(p: Tunables, c: Clock, t: Task, attempt: int, touches: int, d: RuleDecision) {
    var now := c.Effective();
    match d.rule
    case RuleFraudSuppress => t.reason.FraudFlagged? && d.decision.Suppress?
    case RuleMandateRevokedEsc => t.reason.MandateRevoked? && d.decision.Escalate?
    case RulePromiseToPaySuppress => HasActivePromiseToPay(t.ptpDate, c.now) && d.decision.Suppress?
    case RuleExhaustAttemptsEscalate => attempt >= p.maxRetryAttempts && d.decision.Escalate?
    case RuleMaxTouchesCap =>
      && (touches >= p.maxTouchesPerCustomer || (t.flow.CheckoutAbandonment? && touches >= p.checkoutReminderCap))
      && d.decision.Abandon?
    case RuleTransientRetry => t.flow.FailedSubscription? && MayRetry(p, c, t, attempt, touches) && d.decision.Retry?
    case RuleMandateRetryWindow => !IsWithinMandateRetryWindow(now, t.window) && d.decision.Hold?
    case RuleMandateRetrySeq =>
      && IsWithinMandateRetryWindow(now, t.window)
      && d.decision == if MandateRetryAttemptAllowed(p, attempt, now, t.window) then Retry else Hold
    case RuleCheckoutAbandon => t.reason.CheckoutError? && d.decision.Escalate?
    case RuleRepeatVisitorOnly => t.visits < 2 && d.decision.Abandon?
    case RuleCartIncentive => touches == 0 && t.cartValue >= p.cartIncentiveThreshold && d.decision.Contact?
    case RuleCheckoutReminder => (touches > 0 || t.cartValue < p.cartIncentiveThreshold) && d.decision.Contact?
    case RuleDisputeHold => (t.reason.DisputedReceivable? || t.reason.MandateRevoked?) && d.decision.Hold?
    case RuleInvoiceReminder => 1 <= ReceivableTier(p, t.overdueDays) <= 2 && d.decision.Contact?
    case RuleInvoiceEscalateDun => ReceivableTier(p, t.overdueDays) == 3 && d.decision.Escalate?
    case RuleDegradationEscalate => t.reason.IssuerDown? && d.decision.Escalate?
    case RuleDegradationAlert => t.successRate != 0.0 && t.successRate < 0.85 && d.decision.Contact?
    case RuleDegradationRecover => (t.successRate == 0.0 || t.successRate >= 0.85) && d.decision.Recover?
    case RuleVoiceDoNotCall => IsDoNotCall(t.dnc, now) && d.decision.Abandon?
    case RuleVoiceRetry => t.reason.VoiceUnreachable? && d.decision.Contact?
    case RuleVoiceEscalateHuman => touches >= p.maxVoiceCalls && d.decision.Escalate?
    case RuleVoiceCall => touches < p.maxVoiceCalls && touches < p.maxTouchesPerCustomer && d.decision.Contact?
    case RulePtpMissedEscalate =>
      (t.reason.PtpBroken? || t.reason.PtpMissed? || p.ptpSupervisorThreshold <= 0) && d.decision.Escalate?
    case RulePtpSchedule => t.ptpDate.None? && d.decision.Hold?
    case RulePtpReminderBefore => t.ptpDate.Some? && t.ptpDate.value - DAY_MS <= now < t.ptpDate.value
      && d.decision.Contact?
    case RulePtpSuppress => t.ptpDate.Some? && now < t.ptpDate.value - DAY_MS && d.decision.Suppress?
    case RulePtpFollowup => t.ptpDate.Some? && now > t.ptpDate.value && d.decision.Contact?
    case RuleNoOp =>
      || ((t.flow.FailedSubscription? || t.flow.MandateRetry?) && !IsRetryable(t.reason) && d.decision.Abandon?)
      || (t.flow.B2BReceivables? && t.overdueDays < 30 && d.decision.NoAction?)
      || (t.flow.PromiseToPay? && t.ptpDate == Some(now) && d.decision.NoAction?)
      || (t.flow.OtherFlow? && d.decision.NoAction?)
    case _ => false
  }

  lemma RetriesAreTraceable(p: Tunables, c: Clock, t: Task, attempt: nat, touches: nat)
    requires t.flow.FailedSubscription? || t.flow.MandateRetry?
    ensures Explains(p, c, t, attempt, touches, Decide(p, c, t, attempt, touches))
  {
    hide IsDoNotCall, MandateRetryAttemptAllowed, ReceivableTier, IsWithinMandateRetryWindow;
  }

  lemma ChasesAreTraceable(p: Tunables, c: Clock, t: Task, attempt: nat, touches: nat)
    requires t.flow.CheckoutAbandonment? || t.flow.B2BReceivables? || t.flow.PaymentDegradation? || t.flow.OtherFlow?
    ensures Explains(p, c, t, attempt, touches, Decide(p, c, t, attempt, touches))
  {
    hide IsDoNotCall, MandateRetryAttemptAllowed, ReceivableTier, IsWithinMandateRetryWindow;
    TierRange(p, t.overdueDays);
  }

  lemma CallsAreTraceable(p: Tunables, c: Clock, t: Task, attempt: nat, touches: nat)
    requires t.flow.HinglishVoice? || t.flow.PromiseToPay?
    ensures Explains(p, c, t, attempt, touches, Decide(p, c, t, attempt, touches))
  {
    hide IsDoNotCall, MandateRetryAttemptAllowed, ReceivableTier, IsWithinMandateRetryWindow;
  }

  /** Every decision names a rule whose condition holds, and that alone fixes what
      is done: no engine fires a rule for a reason other than its own. */
  lemma EveryDecisionIsTraceable(p: Tunables, c: Clock, t: Task, attempt: nat, touches: nat)
    ensures Explains(p, c, t, attempt, touches, Decide(p, c, t, attempt, touches))
  {
    hide Explains, Decide;
    match t.flow {
      case FailedSubscription => RetriesAreTraceable(p, c, t, attempt, touches);
      case MandateRetry => RetriesAreTraceable(p, c, t, attempt, touches);
      case HinglishVoice => CallsAreTraceable(p, c, t, attempt, touches);
      case PromiseToPay => CallsAreTraceable(p, c, t, attempt, touches);
      case _ => ChasesAreTraceable(p, c, t, attempt, touches);
    }
  }

  // ---------- exactly one rule fires ----------

  /** When each rule of the retry engines fires; no two of these hold at once. */
  predicate FiresOnRetry(p: Tunables, c: Clock, t: Task, attempt: int, touches: int, rule: RuleId) {
    var locked := t.reason.FraudFlagged? || t.reason.MandateRevoked?;
    var promise := t.ptpDate.Some? && t.ptpDate.value > c.now;
    var spent, capped := attempt >= p.maxRetryAttempts, touches >= p.maxTouchesPerCustomer;
    var retryable := t.reason in {InsufficientFunds, CardExpired, BankDeclinedTransient, Auth3dsAbandoned};
    var inWindow := t.window.Some? && t.window.value.start <= c.Effective() <= t.window.value.end;
    match rule
    case RuleFraudSuppress => t.reason.FraudFlagged?
    case RuleMandateRevokedEsc => t.reason.MandateRevoked?
    case RulePromiseToPaySuppress => !locked && promise
    case RuleExhaustAttemptsEscalate => !locked && !promise && spent
    case RuleMaxTouchesCap => !locked && !promise && !spent && capped
    case RuleNoOp => !locked && !promise && !spent && !capped && !retryable
    case RuleTransientRetry => !promise && !spent && !capped && retryable && t.flow.FailedSubscription?
    case RuleMandateRetryWindow => !promise && !spent && !capped && retryable && t.flow.MandateRetry? && !inWindow
    case RuleMandateRetrySeq => !promise && !spent && !capped && retryable && t.flow.MandateRetry? && inWindow
    case _ => false
  }

  predicate FiresOnCheckout(p: Tunables, t: Task, touches: int, rule: RuleId) {
    var error, repeats := t.reason.CheckoutError?, t.visits >= 2;
    var capped := touches >= p.checkoutReminderCap || touches >= p.maxTouchesPerCustomer;
    var incentive := touches == 0 && t.cartValue >= p.cartIncentiveThreshold;
    match rule
    case RuleCheckoutAbandon => error
    case RuleRepeatVisitorOnly => !error && !repeats
    case RuleMaxTouchesCap => !error && repeats && capped
    case RuleCartIncentive => !error && repeats && !capped && incentive
    case RuleCheckoutReminder => !error && repeats && !capped && !incentive
    case _ => false
  }

  predicate FiresOnReceivable(p: Tunables, t: Task, touches: int, rule: RuleId) {
    var disputed := t.reason.DisputedReceivable? || t.reason.MandateRevoked?;
    var capped := touches >= p.maxTouchesPerCustomer;
    var dunned := t.overdueDays >= p.receivableTier2Days && t.overdueDays >= 2 * p.receivableTier2Days;
    match rule
    case RuleDisputeHold => disputed
    case RuleMaxTouchesCap => !disputed && capped
    case RuleNoOp => !disputed && !capped && t.overdueDays < 30
    case RuleInvoiceReminder => !disputed && !capped && t.overdueDays >= 30 && !dunned
    case RuleInvoiceEscalateDun => !disputed && !capped && t.overdueDays >= 30 && dunned
    case _ => false
  }

  predicate FiresOnDegradation(t: Task, rule: RuleId) {
    var alerting := t.successRate != 0.0 && t.successRate < 0.85;
    match rule
    case RuleFraudSuppress => t.reason.FraudFlagged?
    case RuleDegradationEscalate => t.reason.IssuerDown?
    case RuleDegradationAlert => !t.reason.FraudFlagged? && !t.reason.IssuerDown? && alerting
    case RuleDegradationRecover => !t.reason.FraudFlagged? && !t.reason.IssuerDown? && !alerting
    case _ => false
  }

  predicate FiresOnCall(p: Tunables, c: Clock, t: Task, touches: int, rule: RuleId) {
    var locked, silent := t.reason.FraudFlagged? || t.reason.MandateRevoked?, IsDoNotCall(t.dnc, c.Effective());
    var unreachable, called := t.reason.VoiceUnreachable?, touches >= p.maxVoiceCalls;
    var capped := touches >= p.maxTouchesPerCustomer;
    match rule
    case RuleMandateRevokedEsc => t.reason.MandateRevoked?
    case RuleFraudSuppress => t.reason.FraudFlagged?
    case RuleVoiceDoNotCall => !locked && silent
    case RuleVoiceRetry => !silent && unreachable
    case RuleVoiceEscalateHuman => !locked && !silent && !unreachable && called
    case RuleMaxTouchesCap => !locked && !silent && !unreachable && !called && capped
    case RuleVoiceCall => !locked && !silent && !unreachable && !called && !capped
    case _ => false
  }

  predicate FiresOnPromise(p: Tunables, c: Clock, t: Task, rule: RuleId) {
    var broken, now := t.reason.PtpBroken? || t.reason.PtpMissed?, c.Effective();
    var open := !broken && !t.reason.FraudFlagged? && t.ptpDate.Some? && p.ptpSupervisorThreshold > 0;
    match rule
    case RulePtpMissedEscalate =>
      broken || (!t.reason.FraudFlagged? && t.ptpDate.Some? && p.ptpSupervisorThreshold <= 0)
    case RuleFraudSuppress => t.reason.FraudFlagged?
    case RulePtpSchedule => !broken && !t.reason.FraudFlagged? && t.ptpDate.None?
    case RulePtpReminderBefore => open && t.ptpDate.value - 86400000 <= now < t.ptpDate.value
    case RulePtpSuppress => open && now < t.ptpDate.value - 86400000
    case RulePtpFollowup => open && now > t.ptpDate.value
    case RuleNoOp => open && now == t.ptpDate.value
    case _ => false
  }

  predicate Fires(p: Tunables, c: Clock, t: Task, attempt: int, touches: int, rule: RuleId) {
    match t.flow
    case FailedSubscription => FiresOnRetry(p, c, t, attempt, touches, rule)
    case MandateRetry => FiresOnRetry(p, c, t, attempt, touches, rule)
    case CheckoutAbandonment => FiresOnCheckout(p, t, touches, rule)
    case B2BReceivables => FiresOnReceivable(p, t, touches, rule)
    case PaymentDegradation => FiresOnDegradation(t, rule)
    case HinglishVoice => FiresOnCall(p, c, t, touches, rule)
    case PromiseToPay => FiresOnPromise(p, c, t, rule)
    case OtherFlow(_) => rule.RuleNoOp?
  }

  lemma RetryRuleFires(p: Tunables, c: Clock, t: Task, attempt: nat, touches: nat, rule: RuleId)
    requires RetryFlow(t)
    ensures Decide(p, c, t, attempt, touches).rule == rule <==> Fires(p, c, t, attempt, touches, rule)
  {
    hide MandateRetryAttemptAllowed;
  }

  lemma ChaseRuleFires(p: Tunables, c: Clock, t: Task, attempt: nat, touches: nat, rule: RuleId)
    requires t.flow.CheckoutAbandonment? || t.flow.B2BReceivables? || t.flow.PaymentDegradation? || t.flow.OtherFlow?
    ensures Decide(p, c, t, attempt, touches).rule == rule <==> Fires(p, c, t, attempt, touches, rule)
  {
  }

  lemma CallRuleFires(p: Tunables, c: Clock, t: Task, attempt: nat, touches: nat, rule: RuleId)
    requires t.flow.HinglishVoice? || t.flow.PromiseToPay?
    ensures Decide(p, c, t, attempt, touches).rule == rule <==> Fires(p, c, t, attempt, touches, rule)
  {
    hide IsDoNotCall;
  }

  /** Which rule an engine names is fixed by conditions of which exactly one holds: no
      order of checks is left open. */
  lemma RuleFiresExactlyWhen(p: Tunables, c: Clock, t: Task, attempt: nat, touches: nat, rule: RuleId)
    ensures Decide(p, c, t, attempt, touches).rule == rule <==> Fires(p, c, t, attempt, touches, rule)
  {
    hide Decide, Fires;
    match t.flow {
      case FailedSubscription => RetryRuleFires(p, c, t, attempt, touches, rule);
      case MandateRetry => RetryRuleFires(p, c, t, attempt, touches, rule);
      case HinglishVoice => CallRuleFires(p, c, t, attempt, touches, rule);
      case PromiseToPay => CallRuleFires(p, c, t, attempt, touches, rule);
      case _ => ChaseRuleFires(p, c, t, attempt, touches, rule);
    }
  }

  lemma TierRange(p: Tunables, days: int)
    ensures 0 <= ReceivableTier(p, days) <= 3
    ensures ReceivableTier(p, days) == 0 <==> days < 30
    ensures ReceivableTier(p, days) == 1 <==> 30 <= days < p.receivableTier2Days
    ensures ReceivableTier(p, days) == 3 <==>
              30 <= days && p.receivableTier2Days <= days && 2 * p.receivableTier2Days <= days
  {
  }

  /** The order of the locked rules: they win over every cap, budget and promise. */
  lemma LockedRulesComeFirst(p: Tunables, c: Clock, t: Task, attempt: nat, touches: nat)
    requires t.flow in {FailedSubscription, MandateRetry, HinglishVoice, PaymentDegradation}
    ensures t.reason.FraudFlagged? ==> Decide(p, c, t, attempt, touches) == RuleDecision(RuleFraudSuppress, Suppress)
    ensures t.reason.MandateRevoked? && !t.flow.PaymentDegradation? ==>
              Decide(p, c, t, attempt, touches) == RuleDecision(RuleMandateRevokedEsc, Escalate)
  {
    hide IsDoNotCall, MandateRetryAttemptAllowed, IsWithinMandateRetryWindow;
  }

  /** The supervisor rule for large promises never sees the amount: it fires for
      every dated promise or for none, by the sign of its threshold. */
  lemma SupervisorIgnoresTheAmount(p: Tunables, c: Clock, t: Task, attempt: nat, touches: nat, amount: int)
    requires t.flow.PromiseToPay? && t.reason.PtpCommitted?
    ensures Decide(p, c, t.(amount := amount), attempt, touches) == Decide(p, c, t, attempt, touches)
    ensures Decide(p, c, t, attempt, touches).decision.Escalate? <==> t.ptpDate.Some? && p.ptpSupervisorThreshold <= 0
  {
  }

  /** The decision, had the event's amount been copied into the engine's input. */
  function DecideWithAmount(p: Tunables, c: Clock, t: Task, attempt: int, touches: int): RuleDecision {
    DecideForFlow(p, c, Input(t, attempt, touches, t.amount))
  }

  /** Leaving the amount out changes the decision exactly for the kept, dated promises
      whose amount is on the other side of the supervisor's threshold than zero. */
  lemma SupervisorIsMissedExactlyWhen(p: Tunables, c: Clock, t: Task, attempt: nat, touches: nat)
    ensures Decide(p, c, t, attempt, touches) != DecideWithAmount(p, c, t, attempt, touches) <==>
              && t.flow.PromiseToPay? && t.ptpDate.Some?
              && !t.reason.PtpBroken? && !t.reason.PtpMissed? && !t.reason.FraudFlagged?
              && (t.amount >= p.ptpSupervisorThreshold <==> p.ptpSupervisorThreshold > 0)
  {
    hide DecideFailedSubscription, DecideMandateRetry, DecideCheckoutAbandonment, DecideB2BReceivables,
         DecidePaymentDegradation, DecideHinglishVoice;
    if t.flow.PromiseToPay? {
      PromisesAreEngine(p, c, t, attempt, touches, 0);
      PromisesAreEngine(p, c, t, attempt, touches, t.amount);
    } else {
      AmountsAreOnlyPromised(p, c, t, attempt, touches);
    }
  }

  lemma PromisesAreEngine(p: Tunables, c: Clock, t: Task, attempt: nat, touches: nat, amount: int)
    requires t.flow.PromiseToPay?
    ensures DecideForFlow(p, c, Input(t, attempt, touches, amount))
         == DecidePromiseToPay(p, c, Input(t, attempt, touches, amount))
  {
  }

  lemma AmountsAreOnlyPromised(p: Tunables, c: Clock, t: Task, attempt: nat, touches: nat)
    requires !t.flow.PromiseToPay?
    ensures Decide(p, c, t, attempt, touches) == DecideWithAmount(p, c, t, attempt, touches)
  {
    hide IsDoNotCall, IsWithinMandateRetryWindow, MandateRetryAttemptAllowed, ReceivableTier;
  }

  /** A promise of 25000 rupees for the day after `now`. */
  function LargePromise(now: int): Event {
    Event("p", PromiseToPay, "c", 2500000, "INR", "", map["ptp_date" := Number((now + DAY_MS) as real)])
  }

  /** With the shipped tunables its customer is contacted at once, where the documented
      rule sends it to a supervisor. */
  lemma LargePromiseIsContacted(now: int, wall: int)
    requires now > 0
    ensures var t := Prepare(LargePromise(now));
            && MayTouch(DEFAULT_TUNABLES, Clock(now, wall), t, 0, 0)
            && DecideWithAmount(DEFAULT_TUNABLES, Clock(now, wall), t, 0, 0).decision.Escalate?
  {
    assert Prepare(LargePromise(now)).ptpDate == Some(now + DAY_MS);
  }

  // ---------- in every run ----------

  lemma TurnShowsItsDecision(env: Env, t: Task, k: nat, touches: nat)
    ensures var d, row := Decide(env.tun, env.clock, t, k, touches), MachineOf(env).turn(t, k, touches).step.before;
            row.rule == d.rule && row.decision == d.decision && row.actor.PolicyEngine? && row.channel.NoChannel?
  {
    TurnActsOnDecision(env, t, k, touches);
    hide Decide, MachineOf, Execution.ExecuteAction;
  }

  /** The turn behind a step of a driven event. */
  lemma {:induction false} StepIsATurn(env: Env, t: Task, base: nat, left: int, j: nat)
    requires j < |RunFrom(MachineOf(env), t, base, 0, left).steps|
    ensures var step := RunFrom(MachineOf(env), t, base, 0, left).steps[j];
            && step == MachineOf(env).turn(t, j, base + j).step
            && step.attempt == j && step.before.attempt == Some(j)
  {
    hide MachineOf, RunFrom, WellFormed;
    TraceStepsAre(MachineOf(env), t, base, 0, left);
    MachineIsWellFormed(env);
    TurnsAreWellFormed(MachineOf(env), t, j, base + j);
    var step := RunFrom(MachineOf(env), t, base, 0, left).steps[j];
    assert step == TurnAt(MachineOf(env), t, base, j).step;
    assert step.before in StepRows(step);
  }

  /** In every run, every decision row a driven event left in the log names the one
      rule that fires at its attempt and its customer's touches so far, is explained
      by it, and was followed by a touch exactly when the flow's conditions held. */
  lemma {:induction false} EveryStepIsTraceable(env: Env, tasks: seq<Task>, b: Book, i: nat, j: nat)
    requires i < |Process(MachineOf(env), tasks, b).deliveries|
    requires var d := Process(MachineOf(env), tasks, b).deliveries[i]; d.Fresh? && j < |d.trace.steps|
    ensures var d := Process(MachineOf(env), tasks, b).deliveries[i];
            var step := d.trace.steps[j];
            && step.attempt == j && step.before.attempt == Some(j)
            && Explains(env.tun, env.clock, d.task, j, d.base + j, RuleDecision(step.before.rule, step.before.decision))
            && Fires(env.tun, env.clock, d.task, j, d.base + j, step.before.rule)
            && (step.executed <==> MayTouch(env.tun, env.clock, d.task, j, d.base + j))
  {
    hide Process, MachineOf, RunFrom, Explains, Fires, MayTouch, Acts, Decide, Execution.ExecuteAction;
    var m := MachineOf(env);
    var d := Process(m, tasks, b).deliveries[i];
    DeliveriesAre(m, tasks, b);
    assert IsDelivery(m, tasks[i], d);
    StepIsATurn(env, d.task, d.base, d.left, j);
    TurnShowsItsDecision(env, d.task, j, d.base + j);
    TurnExecutes(env, d.task, j, d.base + j);
    EveryDecisionIsTraceable(env.tun, env.clock, d.task, j, d.base + j);
    RuleFiresExactlyWhen(env.tun, env.clock, d.task, j, d.base + j, d.trace.steps[j].before.rule);
    TouchedExactlyWhen(env.tun, env.clock, d.task, j, d.base + j);
  }
}
