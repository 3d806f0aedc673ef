/** What the engine does with a raw event, read off its signal: when the customer is
    touched, and what the locked rules make of it (go/rz/classify.go,
    go/rz/runner.go:244-273, go/rz/engines.go). */
module Events {
  import opened Types
  import opened Classify
  import opened Rules
  import opened Hours
  import opened Engines
  import opened Loop
  import opened Runner
  import opened Bounds
  import opened Policy
  import opened Signals
  import Execution

  /** Go's conversion of a JSON number to an integer: towards zero. */
  lemma TruncatesTowardsZero(x: real)
    ensures x >= 0.0 ==> Truncate(x) as real <= x < Truncate(x) as real + 1.0
    ensures x <= 0.0 ==> Truncate(x) as real - 1.0 < x <= Truncate(x) as real
  {
  }

  // ---------- when a customer is touched, by the signal ----------

  /** The promise date is a number later than the batch time. */
  predicate Promised(s: Signal, now: int) {
    "ptp_date" in s && s["ptp_date"].Number? && Truncate(s["ptp_date"].n) > now
  }

  predicate ChargeIsOpen(p: Tunables, c: Clock, s: Signal, k: nat, touches: nat) {
    && (ChargeBucket(s, InsufficientFunds) || ChargeBucket(s, CardExpired)
        || ChargeBucket(s, BankDeclinedTransient) || ChargeBucket(s, Auth3dsAbandoned))
    && !Promised(s, c.now) && k < p.maxRetryAttempts && touches < p.maxTouchesPerCustomer
  }

  /** The retry window has begun `k` or more days ago, within the sequence, and has not ended. */
  predicate WindowIsOpen(p: Tunables, s: Signal, now: int, k: nat) {
    && "retry_window" in s && s["retry_window"].Object?
    && var w := s["retry_window"].fields;
       && "start" in w && "end" in w && w["start"].Number? && w["end"].Number?
       && var start, end := Truncate(w["start"].n), Truncate(w["end"].n);
          && start <= now <= end
          && k <= (now - start) / 86400000
          && ((now - start) / 86400000 < p.mandateWindowDays || now - start < 86400000)
  }

  predicate InvoiceIsDue(p: Tunables, s: Signal) {
    && AtLeast(s, "overdue_days", 30.0)
    && (s["overdue_days"].n < p.receivableTier2Days as real
        || s["overdue_days"].n < 2.0 * p.receivableTier2Days as real)
  }

  predicate RateIsLow(s: Signal) {
    "success_rate" in s && s["success_rate"].Number? && s["success_rate"].n != 0.0 && s["success_rate"].n < 0.85
  }

  predicate Reachable(s: Signal) {
    || TextIs(s, "call_state", "missed") || TextIs(s, "call_state", "no_answer")
    || TextIs(s, "call_state", "call_back_requested")
  }

  /** The promise is kept so far, and due within a day or overdue. */
  predicate PromiseIsDue(s: Signal, now: int) {
    && !TextIs(s, "ptp_status", "broken") && !TextIs(s, "ptp_status", "missed")
    && "ptp_date" in s && s["ptp_date"].Number?
    && now != Truncate(s["ptp_date"].n) && now >= Truncate(s["ptp_date"].n) - 86400000
  }

  /** The customer is touched at attempt `k`, after `touches` earlier ones. */
  predicate TouchedBySignal(env: Env, e: Event, k: nat, touches: nat) {
    var p, c, s := env.tun, env.clock, e.signal;
    var now := if c.now == 0 then c.wall else c.now;
    match e.flow
    case FailedSubscription => ChargeIsOpen(p, c, s, k, touches)
    case MandateRetry => ChargeIsOpen(p, c, s, k, touches) && WindowIsOpen(p, s, now, k)
    case CheckoutAbandonment =>
      && !HasText(s, "error") && AtLeast(s, "visits", 2.0)
      && touches < p.checkoutReminderCap && touches < p.maxTouchesPerCustomer
    case B2BReceivables => !Disputed(s) && InvoiceIsDue(p, s) && touches < p.maxTouchesPerCustomer
    case PaymentDegradation =>
      !Coded(s, {"FRAUD_DETECTED", "RISK_DECLINE"}) && !Coded(s, {"ISSUER_DOWN"}) && RateIsLow(s)
    case HinglishVoice =>
      && !Flagged(s, "dnc_flag") && !(now != 0 && Quiet(now))
      && (Reachable(s) ==> touches < p.maxVoiceCalls && touches < p.maxTouchesPerCustomer)
    case PromiseToPay => PromiseIsDue(s, now) && p.ptpSupervisorThreshold > 0
    case OtherFlow(_) => false
  }

  lemma ChargeIsTouched(env: Env, e: Event, k: nat, touches: nat)
    requires RetryFlow(Prepare(e))
    ensures MayTouch(env.tun, env.clock, Prepare(e), k, touches) <==> TouchedBySignal(env, e, k, touches)
  {
    hide ClassifyEvent, ChargeBucket, Truncate;
    BucketIsOfTheSignal(e, InsufficientFunds);
    BucketIsOfTheSignal(e, CardExpired);
    BucketIsOfTheSignal(e, BankDeclinedTransient);
    BucketIsOfTheSignal(e, Auth3dsAbandoned);
  }

  lemma CheckoutIsTouched(env: Env, e: Event, k: nat, touches: nat)
    requires e.flow.CheckoutAbandonment?
    ensures MayTouch(env.tun, env.clock, Prepare(e), k, touches) <==> TouchedBySignal(env, e, k, touches)
  {
    hide ClassifyEvent, HasText, RetryWindowOf, ToInt64;
    BucketIsOfTheSignal(e, CheckoutError);
  }

  lemma InvoiceIsTouched(env: Env, e: Event, k: nat, touches: nat)
    requires e.flow.B2BReceivables?
    ensures MayTouch(env.tun, env.clock, Prepare(e), k, touches) <==> TouchedBySignal(env, e, k, touches)
  {
    hide ClassifyEvent, Disputed, RetryWindowOf, ToInt64;
    BucketIsOfTheSignal(e, DisputedReceivable);
    BucketIsOfTheSignal(e, MandateRevoked);
  }

  lemma DegradationIsTouched(env: Env, e: Event, k: nat, touches: nat)
    requires e.flow.PaymentDegradation?
    ensures MayTouch(env.tun, env.clock, Prepare(e), k, touches) <==> TouchedBySignal(env, e, k, touches)
  {
    hide ClassifyEvent, Coded, RetryWindowOf, ToInt64, Truncate;
    BucketIsOfTheSignal(e, FraudFlagged);
    BucketIsOfTheSignal(e, IssuerDown);
    OneCode(e.signal);
  }

  /** A code has one bucket. */
  lemma OneCode(s: Signal)
    ensures Coded(s, CodesOf(FraudFlagged)) ==> !Coded(s, CodesOf(IssuerDown)) && !Uncoded(s)
    ensures Coded(s, CodesOf(IssuerDown)) ==> !Uncoded(s)
  {
    hide Coded, CodesOf, PickBucketFromCode, StrField;
    CodedIsPicked(s, FraudFlagged);
    CodedIsPicked(s, IssuerDown);
  }

  lemma CallIsTouched(env: Env, e: Event, k: nat, touches: nat)
    requires e.flow.HinglishVoice?
    ensures MayTouch(env.tun, env.clock, Prepare(e), k, touches) <==> TouchedBySignal(env, e, k, touches)
  {
    hide ClassifyEvent, Quiet, IsDoNotCall, RetryWindowOf, ToInt64, Truncate;
    BucketIsOfTheSignal(e, VoiceUnreachable);
    BucketIsOfTheSignal(e, MandateRevoked);
    BucketIsOfTheSignal(e, FraudFlagged);
    DoNotCallExactlyWhen(Prepare(e).dnc, env.clock.Effective());
  }

  lemma PromiseIsTouched(env: Env, e: Event, k: nat, touches: nat)
    requires e.flow.PromiseToPay?
    ensures MayTouch(env.tun, env.clock, Prepare(e), k, touches) <==> TouchedBySignal(env, e, k, touches)
  {
    hide ClassifyEvent, RetryWindowOf, Truncate;
    BucketIsOfTheSignal(e, PtpBroken);
    BucketIsOfTheSignal(e, PtpMissed);
    BucketIsOfTheSignal(e, FraudFlagged);
  }

  /** For every event of every flow, at every attempt: the customer is touched exactly
      when the signal, the clock and the limits say so. */
  lemma EventIsTouchedExactlyWhen(env: Env, e: Event, k: nat, touches: nat)
    ensures MachineOf(env).turn(Prepare(e), k, touches).step.executed <==> TouchedBySignal(env, e, k, touches)
  {
    hide MachineOf, MayTouch, TouchedBySignal, Execution.ExecuteAction, Acts, RetryFlow, ClassifyEvent;
    TurnExecutes(env, Prepare(e), k, touches);
    TouchedExactlyWhen(env.tun, env.clock, Prepare(e), k, touches);
    match e.flow {
      case FailedSubscription => FlowRetries(e); ChargeIsTouched(env, e, k, touches);
      case MandateRetry => FlowRetries(e); ChargeIsTouched(env, e, k, touches);
      case CheckoutAbandonment => CheckoutIsTouched(env, e, k, touches);
      case B2BReceivables => InvoiceIsTouched(env, e, k, touches);
      case PaymentDegradation => DegradationIsTouched(env, e, k, touches);
      case HinglishVoice => CallIsTouched(env, e, k, touches);
      case PromiseToPay => PromiseIsTouched(env, e, k, touches);
      case OtherFlow(_) => UnknownIsNotTouched(env, e, k, touches);
    }
  }

  lemma FlowRetries(e: Event)
    requires e.flow.FailedSubscription? || e.flow.MandateRetry?
    ensures RetryFlow(Prepare(e))
  {
  }

  lemma UnknownIsNotTouched(env: Env, e: Event, k: nat, touches: nat)
    requires e.flow.OtherFlow?
    ensures !MayTouch(env.tun, env.clock, Prepare(e), k, touches) && !TouchedBySignal(env, e, k, touches)
  {
  }

  /** In every run, every step of every driven event was executed exactly then. */
  lemma {:induction false} EveryTouchIsBySignal(env: Env, events: seq<Event>, b: Book, i: nat, j: nat)
    requires i < |events| && i < |Process(MachineOf(env), PrepareAll(events), b).deliveries|
    requires var d := Process(MachineOf(env), PrepareAll(events), b).deliveries[i]; d.Fresh? && j < |d.trace.steps|
    ensures var d := Process(MachineOf(env), PrepareAll(events), b).deliveries[i];
            d.trace.steps[j].executed <==> TouchedBySignal(env, events[i], j, d.base + j)
  {
    hide Process, MachineOf, RunFrom, TouchedBySignal, Prepare;
    var d := Process(MachineOf(env), PrepareAll(events), b).deliveries[i];
    DeliveriesAre(MachineOf(env), PrepareAll(events), b);
    assert IsDelivery(MachineOf(env), Prepare(events[i]), d);
    StepIsATurn(env, d.task, d.base, d.left, j);
    EventIsTouchedExactlyWhen(env, events[i], j, d.base + j);
  }

  // ---------- whose row it is ----------

  /** The row carries the identity of the raw event. */
  predicate IsRowOfEvent(r: Row, e: Event, now: int) {
    && r.eventId == e.eventId && r.flow == e.flow && r.customerId == e.customerId && r.amount == Some(e.amount)
    && r.currency == e.currency && r.invoiceId == e.invoiceId && r.timestamp == now
    && Bucketed(e.flow, e.signal, r.reason)
  }

  /** In every run, every row of a delivery - marker or not - is its event's, and its
      bucket is the one the event's signal calls for. */
  lemma {:induction false} EveryRowIsOfItsEvent(env: Env, events: seq<Event>, b: Book, i: nat)
    requires i < |events| && i < |Process(MachineOf(env), PrepareAll(events), b).deliveries|
    ensures forall r :: r in DeliveryRows(Process(MachineOf(env), PrepareAll(events), b).deliveries[i]) ==>
              IsRowOfEvent(r, events[i], env.clock.now)
  {
    hide Process, MachineOf, RunFrom, RowsOfSteps, ClassifyEvent, Bucketed;
    var m := MachineOf(env);
    var d := Process(m, PrepareAll(events), b).deliveries[i];
    BucketIsOfTheSignal(events[i], Prepare(events[i]).reason);
    DeliveriesAre(m, PrepareAll(events), b);
    assert IsDelivery(m, Prepare(events[i]), d);
    MachineIsWellFormed(env);
    MachineTime(env);
    if d.Fresh? {
      TraceRows(m, d.task, d.base, 0, d.left);
    }
  }

  // ---------- the locked rules, by the signal ----------

  /** The signal speaks of fraud: by its code, or - for a charge without a known code -
      by its words, if they speak of nothing that is asked about before. */
  predicate SignalsFraud(e: Event) {
    var s := e.signal;
    match e.flow
    case FailedSubscription => Coded(s, {"FRAUD_DETECTED", "RISK_DECLINE"}) || SpeaksOnlyOfFraud(s)
    case MandateRetry => Coded(s, {"FRAUD_DETECTED", "RISK_DECLINE"}) || SpeaksOnlyOfFraud(s)
    case PaymentDegradation => Coded(s, {"FRAUD_DETECTED", "RISK_DECLINE"})
    case _ => false
  }

  predicate SpeaksOnlyOfFraud(s: Signal) {
    && Uncoded(s) && (Speaks(s, "fraud") || Speaks(s, "risk") || Speaks(s, "suspicious"))
    && !Speaks(s, "insufficient") && !Speaks(s, "limit") && !Speaks(s, "expired")
    && !(Speaks(s, "mandate") && (Speaks(s, "revoke") || Speaks(s, "cancel") || Speaks(s, "invalid")))
  }

  predicate SignalsRevocation(e: Event) {
    && (e.flow.FailedSubscription? || e.flow.MandateRetry?)
    && Coded(e.signal, {"MANDATE_REVOKED", "MANDATE_INVALID", "MANDATE_CANCELLED"})
  }

  /** A voice event that must not be called. */
  predicate SignalsDoNotCall(e: Event) { e.flow.HinglishVoice? && Flagged(e.signal, "dnc_flag") }

  lemma FraudIsBucketed(e: Event)
    ensures SignalsFraud(e) ==> Prepare(e).reason.FraudFlagged?
    ensures SignalsRevocation(e) ==> Prepare(e).reason.MandateRevoked?
  {
    hide ClassifyEvent, Coded, Speaks, Uncoded, RetryWindowOf, ToInt64, Truncate, NumField;
    BucketIsOfTheSignal(e, FraudFlagged);
    BucketIsOfTheSignal(e, MandateRevoked);
  }

  lemma LockedDecisions(p: Tunables, c: Clock, e: Event, k: nat, touches: nat)
    ensures SignalsFraud(e) ==> Decide(p, c, Prepare(e), k, touches).decision == Suppress
    ensures SignalsRevocation(e) ==> Decide(p, c, Prepare(e), k, touches).decision == Escalate
    ensures SignalsDoNotCall(e) ==> Decide(p, c, Prepare(e), k, touches).decision == Abandon
  {
    FraudIsBucketed(e);
    hide ClassifyEvent, Coded, SpeaksOnlyOfFraud, IsQuietHour;
    var t := Prepare(e);
    if SignalsFraud(e) || SignalsRevocation(e) {
      LockedRulesComeFirst(p, c, t, k, touches);
    } else if SignalsDoNotCall(e) {
      ClassifierRange(e);
      RuleFiresExactlyWhen(p, c, t, k, touches, RuleVoiceDoNotCall);
      EveryDecisionIsTraceable(p, c, t, k, touches);
    }
    hide Decide;
  }

  /** The end that a locked rule puts to an event. */
  predicate EndsLocked(e: Event, tr: Trace) {
    && (SignalsFraud(e) ==> |tr.steps| == 1 && !tr.steps[0].executed && tr.end == Finished(Suppressed))
    && (SignalsRevocation(e) ==> |tr.steps| == 1 && !tr.steps[0].executed && tr.end == Finished(Escalated))
    && (SignalsDoNotCall(e) ==> |tr.steps| == 1 && !tr.steps[0].executed && tr.end == Finished(Abandoned))
  }

  /** Whatever the tunables, the touches before, the draws and the budget: an event
      that signals fraud is suppressed, one that signals a revoked mandate escalated,
      and one flagged do-not-call abandoned - in one turn that executes nothing. */
  lemma LockedSignalsAreNeverTouched(env: Env, e: Event, base: nat, left: int)
    requires left > 0
    ensures EndsLocked(e, RunFrom(MachineOf(env), Prepare(e), base, 0, left))
  {
    hide Prepare, SignalsFraud, SignalsRevocation, SignalsDoNotCall, Decide, Execution.ExecuteAction;
    LockedDecisions(env.tun, env.clock, e, 0, base);
    TurnActsOnDecision(env, Prepare(e), 0, base);
  }

  /** In every run. */
  lemma {:induction false} LockedSignalsInRuns(env: Env, events: seq<Event>, b: Book, i: nat)
    requires i < |events| && i < |Process(MachineOf(env), PrepareAll(events), b).deliveries|
    requires Process(MachineOf(env), PrepareAll(events), b).deliveries[i].Fresh?
    ensures EndsLocked(events[i], Process(MachineOf(env), PrepareAll(events), b).deliveries[i].trace)
  {
    hide Process, MachineOf, RunFrom, EndsLocked, Prepare;
    var d := Process(MachineOf(env), PrepareAll(events), b).deliveries[i];
    DeliveriesAre(MachineOf(env), PrepareAll(events), b);
    assert IsDelivery(MachineOf(env), Prepare(events[i]), d);
    LockedSignalsAreNeverTouched(env, events[i], d.base, d.left);
  }

  // ---------- the quiet hours, by the clock ----------

  /** A customer who may be called at all is called up to the last millisecond before
      21:00 and from 09:00 on, and not in between. */
  lemma CallsStopAtNine(env: Env, e: Event, k: nat, touches: nat)
    requires e.flow.HinglishVoice? && !Flagged(e.signal, "dnc_flag") && env.clock.now != 0
    requires Reachable(e.signal) ==> touches < env.tun.maxVoiceCalls && touches < env.tun.maxTouchesPerCustomer
    ensures MachineOf(env).turn(Prepare(e), k, touches).step.executed
       <==> 32400000 <= (env.clock.now + 19800000) % 86400000 < 75600000
  {
    EventIsTouchedExactlyWhen(env, e, k, touches);
    hide MachineOf, Prepare;
  }

  // ---------- the first reminder ----------

  /** The first reminder offers the incentive exactly when the cart is worth it. */
  lemma IncentiveExactlyWhen(env: Env, e: Event)
    requires e.flow.CheckoutAbandonment? && TouchedBySignal(env, e, 0, 0)
    ensures var s := e.signal;
            var cart := if "cart_value" in s && s["cart_value"].Number? then Truncate(s["cart_value"].n) else 0;
            MachineOf(env).turn(Prepare(e), 0, 0).step.before.rule == RuleCartIncentive
            <==> cart >= env.tun.cartIncentiveThreshold
  {
    EventIsTouchedExactlyWhen(env, e, 0, 0);
    TurnShowsItsDecision(env, Prepare(e), 0, 0);
    TurnExecutes(env, Prepare(e), 0, 0);
    hide MachineOf, ClassifyEvent, TouchedBySignal, Truncate, RetryWindowOf, ToInt64;
  }
}
