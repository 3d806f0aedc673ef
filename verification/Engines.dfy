/** The seven pure decision engines (go/rz/engines.go). */
module Engines {
  import opened Types
  import opened Classify
  import opened Rules

  datatype RuleDecision = RuleDecision(rule: RuleId, decision: Decision)

  /** What an engine sees: the event's facts, the attempt number, and how often
      the customer has been touched. The state machine does not copy the amount,
      so the supervisor rule always sees 0. */
  datatype Input = Input(task: Task, attempt: int, touches: int, amount: int)

  function BaseRetryDecision(p: Tunables, c: Clock, i: Input): RuleDecision {
    if IsFraudFlagged(i.task.reason) then RuleDecision(RuleFraudSuppress, Suppress)
    else if IsMandateRevoked(i.task.reason) then RuleDecision(RuleMandateRevokedEsc, Escalate)
    else if HasActivePromiseToPay(i.task.ptpDate, c.now) then RuleDecision(RulePromiseToPaySuppress, Suppress)
    else if AtMaxRetryAttempts(p, i.attempt) then RuleDecision(RuleExhaustAttemptsEscalate, Escalate)
    else if AtTouchCap(p, i.touches) then RuleDecision(RuleMaxTouchesCap, Abandon)
    else if !IsRetryable(i.task.reason) then RuleDecision(RuleNoOp, Abandon)
    else RuleDecision(RuleTransientRetry, Retry)
  }

  function DecideFailedSubscription(p: Tunables, c: Clock, i: Input): RuleDecision {
    BaseRetryDecision(p, c, i)
  }

  function DecideMandateRetry(p: Tunables, c: Clock, i: Input): RuleDecision {
    var base := BaseRetryDecision(p, c, i);
    if base.decision != Retry then base
    else if !IsWithinMandateRetryWindow(c.Effective(), i.task.window) then RuleDecision(RuleMandateRetryWindow, Hold)
    else if !MandateRetryAttemptAllowed(p, i.attempt, c.Effective(), i.task.window) then
      RuleDecision(RuleMandateRetrySeq, Hold)
    else RuleDecision(RuleMandateRetrySeq, Retry)
  }

  function DecideCheckoutAbandonment(p: Tunables, i: Input): RuleDecision {
    if i.task.reason.CheckoutError? then RuleDecision(RuleCheckoutAbandon, Escalate)
    else if !IsRepeatVisitor(i.task.visits) then RuleDecision(RuleRepeatVisitorOnly, Abandon)
    else if AtCheckoutReminderCap(p, i.touches) || AtTouchCap(p, i.touches) then
      RuleDecision(RuleMaxTouchesCap, Abandon)
    else if i.touches == 0 && CartEligibleForIncentive(p, i.task.cartValue) then
      RuleDecision(RuleCartIncentive, Contact)
    else RuleDecision(RuleCheckoutReminder, Contact)
  }

  function DecideB2BReceivables(p: Tunables, i: Input): RuleDecision {
    if IsMandateRevoked(i.task.reason) then RuleDecision(RuleDisputeHold, Hold)
    else if i.task.reason.DisputedReceivable? then RuleDecision(RuleDisputeHold, Hold)
    else if AtTouchCap(p, i.touches) then RuleDecision(RuleMaxTouchesCap, Abandon)
    else
      var tier := ReceivableTier(p, i.task.overdueDays);
      if tier == 0 then RuleDecision(RuleNoOp, NoAction)
      else if tier == 1 || tier == 2 then RuleDecision(RuleInvoiceReminder, Contact)
      else RuleDecision(RuleInvoiceEscalateDun, Escalate)
  }

  function DecidePaymentDegradation(i: Input): RuleDecision {
    if i.task.reason.FraudFlagged? then RuleDecision(RuleFraudSuppress, Suppress)
    else if i.task.reason.IssuerDown? then RuleDecision(RuleDegradationEscalate, Escalate)
    else if SuccessRateBelowThreshold(if i.task.successRate == 0.0 then 1.0 else i.task.successRate) then
      RuleDecision(RuleDegradationAlert, Contact)
    else RuleDecision(RuleDegradationRecover, Recover)
  }

  function DecideHinglishVoice(p: Tunables, c: Clock, i: Input): RuleDecision {
    if IsMandateRevoked(i.task.reason) then RuleDecision(RuleMandateRevokedEsc, Escalate)
    else if IsFraudFlagged(i.task.reason) then RuleDecision(RuleFraudSuppress, Suppress)
    else if IsDoNotCall(i.task.dnc, c.Effective()) then RuleDecision(RuleVoiceDoNotCall, Abandon)
    else if i.task.reason.VoiceUnreachable? then RuleDecision(RuleVoiceRetry, Contact)
    else if AtVoiceCallCap(p, i.touches) then RuleDecision(RuleVoiceEscalateHuman, Escalate)
    else if AtTouchCap(p, i.touches) then RuleDecision(RuleMaxTouchesCap, Abandon)
    else RuleDecision(RuleVoiceCall, Contact)
  }

  function DecidePromiseToPay(p: Tunables, c: Clock, i: Input): RuleDecision {
    if i.task.reason.PtpBroken? || i.task.reason.PtpMissed? then RuleDecision(RulePtpMissedEscalate, Escalate)
    else if i.task.reason.FraudFlagged? then RuleDecision(RuleFraudSuppress, Suppress)
    else if i.task.ptpDate.None? then RuleDecision(RulePtpSchedule, Hold)
    else if PtpNeedsSupervisor(p, i.amount) then RuleDecision(RulePtpMissedEscalate, Escalate)
    else
      var now, ptp := c.Effective(), i.task.ptpDate.value;
      if now < ptp then
        if PtpReminderDue(now, ptp) then RuleDecision(RulePtpReminderBefore, Contact)
        else RuleDecision(RulePtpSuppress, Suppress)
      else if now > ptp then RuleDecision(RulePtpFollowup, Contact)
      else RuleDecision(RuleNoOp, NoAction)
  }

  function DecideForFlow(p: Tunables, c: Clock, i: Input): RuleDecision {
    match i.task.flow
    case FailedSubscription => DecideFailedSubscription(p, c, i)
    case MandateRetry => DecideMandateRetry(p, c, i)
    case CheckoutAbandonment => DecideCheckoutAbandonment(p, i)
    case B2BReceivables => DecideB2BReceivables(p, i)
    case PaymentDegradation => DecidePaymentDegradation(i)
    case HinglishVoice => DecideHinglishVoice(p, c, i)
    case PromiseToPay => DecidePromiseToPay(p, c, i)
    case OtherFlow(_) => RuleDecision(RuleNoOp, NoAction)
  }

  /** The state machine's input for a task: the amount is left at 0. */
  function Decide(p: Tunables, c: Clock, t: Task, attempt: int, touches: int): RuleDecision {
    DecideForFlow(p, c, Input(t, attempt, touches, 0))
  }

  /** Whether the decision makes the loop execute a touch. */
  predicate Acts(p: Tunables, c: Clock, t: Task, attempt: int, touches: int) {
    Decide(p, c, t, attempt, touches).decision in {Retry, Contact}
  }
}
