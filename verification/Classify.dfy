/** Raw events, their classification into one reason bucket, and the facts the
    batch loop reads off the signal (go/rz/classify.go, go/rz/runner.go). */
module Classify {
  import opened Types

  /** A decoded JSON value of a signal. */
  datatype Json = Null | Bool(b: bool) | Number(n: real) | Text(s: string) | Object(fields: map<string, Json>)

  type Signal = map<string, Json>

  datatype Event = Event(
    eventId: string, flow: Flow, customerId: string, amount: int,
    currency: string, invoiceId: string, signal: Signal)

  datatype Window = Window(start: int, end: int)

  /** An event with everything the loop derives from its signal. */
  datatype Task = Task(
    eventId: string, flow: Flow, customerId: string, amount: int,
    currency: string, invoiceId: string, reason: Reason,
    ptpDate: Option<int>, overdueDays: int, window: Option<Window>, dnc: bool,
    cartValue: int, visits: int, successRate: real, healed: bool)

  // ---------- signal readers ----------

  function StrField(s: Signal, key: string): string {
    if key in s && s[key].Text? then s[key].s else ""
  }

  function NumField(s: Signal, key: string): real {
    if key in s && s[key].Number? then s[key].n else 0.0
  }

  predicate BoolField(s: Signal, key: string) {
    key in s && s[key].Bool? && s[key].b
  }

  /** Go's conversion of a float to an integer: towards zero. */
  function Truncate(x: real): int {
    if x >= 0.0 then x.Floor else -((-x).Floor)
  }

  function ToInt64(v: Json): Option<int> {
    if v.Number? then Some(Truncate(v.n)) else None
  }

  function Lower(s: string): string {
    seq(|s|, i requires 0 <= i < |s| => if 'A' <= s[i] <= 'Z' then (s[i] as int + 32) as char else s[i])
  }

  function Upper(s: string): string {
    seq(|s|, i requires 0 <= i < |s| => if 'a' <= s[i] <= 'z' then (s[i] as int - 32) as char else s[i])
  }

  predicate PartAt(s: string, i: nat, part: string) { i + |part| <= |s| && s[i..i + |part|] == part }

  predicate Contains(s: string, part: string) { exists i: nat :: i <= |s| && PartAt(s, i, part) }

  // ---------- classifiers ----------

  function PickBucketFromCode(code: string): Option<Reason> {
    var c := Upper(code);
    if c in {"BAD_REQUEST_ERROR", "CARD_DECLINED"} then Some(InsufficientFunds)
    else if c in {"CARD_EXPIRED", "CARD_EXPIRED_CODE"} then Some(CardExpired)
    else if c in {"DIRECTORAUTHPARAM_FAILED", "AUTH_FAILED", "DIRECTAUTHPARAM_FAILED",
                  "CUSTOMER_ABANDONED", "AUTH_ACCEPTED_LATER"} then Some(Auth3dsAbandoned)
    else if c in {"ISSUER_UNAVAILABLE", "UNAUTHORIZED_PAYMENT", "PAYMENT_AUTHENTICATION_FAILED",
                  "BANK_REFUND_DECLINED", "NETWORK_ERROR"} then Some(BankDeclinedTransient)
    else if c in {"MANDATE_REVOKED", "MANDATE_INVALID", "MANDATE_CANCELLED"} then Some(MandateRevoked)
    else if c in {"FRAUD_DETECTED", "RISK_DECLINE"} then Some(FraudFlagged)
    else if c == "SUCCESS_RATE_DROP" then Some(SuccessRateDrop)
    else if c == "LATENCY_SPIKE" then Some(LatencySpike)
    else if c == "ISSUER_DOWN" then Some(IssuerDown)
    else None
  }

  function ClassifySubscription(s: Signal): Reason {
    var code := PickBucketFromCode(StrField(s, "error_code"));
    if code.Some? then code.value else
      var desc := Lower(StrField(s, "error_description") + " " + StrField(s, "error_reason"));
      if Contains(desc, "insufficient") || Contains(desc, "limit") then InsufficientFunds
      else if Contains(desc, "expired") then CardExpired
      else if Contains(desc, "mandate")
              && (Contains(desc, "revoke") || Contains(desc, "cancel") || Contains(desc, "invalid")) then MandateRevoked
      else if Contains(desc, "fraud") || Contains(desc, "risk") || Contains(desc, "suspicious") then FraudFlagged
      else if Contains(desc, "abandoned") || Contains(desc, "3ds") || Contains(desc, "auth") then Auth3dsAbandoned
      else BankDeclinedTransient
  }

  function ClassifyCheckout(s: Signal): Reason {
    var step := StrField(s, "abandoned_at_step");
    if StrField(s, "error") != "" then CheckoutError
    else if Contains(step, "payment") || Contains(step, "otp") || Contains(step, "upi") then PaymentStepAbandoned
    else if Contains(step, "address") then AddressAbandoned
    else if NumField(s, "page_load_ms") > 5000.0 then SlowCheckout
    else if BoolField(s, "price_mismatch") then PriceMismatch
    else PaymentStepAbandoned
  }

  function ClassifyReceivable(s: Signal): Reason {
    if BoolField(s, "disputed") || StrField(s, "dispute_note") != "" then DisputedReceivable
    else if Truncate(NumField(s, "overdue_days")) < 60 then OverdueNet30
    else OverdueNet60
  }

  function ClassifyDegradation(s: Signal): Reason {
    var code := PickBucketFromCode(StrField(s, "error_code"));
    if code.Some? then code.value
    else if NumField(s, "success_rate") < 0.85 then SuccessRateDrop
    else if NumField(s, "latency_ms") > 2000.0 then LatencySpike
    else if BoolField(s, "issuer_down") then IssuerDown
    else BankDeclinedTransient
  }

  function ClassifyVoice(s: Signal): Reason {
    var state := StrField(s, "call_state");
    if state in {"missed", "no_answer"} then VoiceMissedCall
    else if state == "call_back_requested" then VoiceAskedCallBack
    else VoiceUnreachable
  }

  function ClassifyPromiseToPay(s: Signal): Reason {
    var status := StrField(s, "ptp_status");
    if status == "broken" then PtpBroken
    else if status == "missed" then PtpMissed
    else PtpCommitted
  }

  function ClassifyEvent(e: Event): Reason {
    match e.flow
    case FailedSubscription => ClassifySubscription(e.signal)
    case MandateRetry => ClassifySubscription(e.signal)
    case CheckoutAbandonment => ClassifyCheckout(e.signal)
    case B2BReceivables => ClassifyReceivable(e.signal)
    case PaymentDegradation => ClassifyDegradation(e.signal)
    case HinglishVoice => ClassifyVoice(e.signal)
    case PromiseToPay => ClassifyPromiseToPay(e.signal)
    case OtherFlow(_) => BankDeclinedTransient
  }

  // ---------- facts for the loop ----------

  function RetryWindowOf(s: Signal): Option<Window> {
    if "retry_window" in s && s["retry_window"].Object? then
      var w := s["retry_window"].fields;
      if "start" in w && "end" in w && w["start"].Number? && w["end"].Number? then
        Some(Window(Truncate(w["start"].n), Truncate(w["end"].n)))
      else None
    else None
  }

  function Prepare(e: Event): Task {
    Task(e.eventId, e.flow, e.customerId, e.amount, e.currency, e.invoiceId, ClassifyEvent(e),
         if "ptp_date" in e.signal then ToInt64(e.signal["ptp_date"]) else None,
         Truncate(NumField(e.signal, "overdue_days")),
         RetryWindowOf(e.signal),
         BoolField(e.signal, "dnc_flag"),
         Truncate(NumField(e.signal, "cart_value")),
         Truncate(NumField(e.signal, "visits")),
         NumField(e.signal, "success_rate"),
         BoolField(e.signal, "recovered"))
  }

  function PrepareAll(events: seq<Event>): (tasks: seq<Task>)
    ensures |tasks| == |events|
    ensures forall i :: 0 <= i < |events| ==> tasks[i] == Prepare(events[i])
  {
    seq(|events|, i requires 0 <= i < |events| => Prepare(events[i]))
  }

  /** The buckets each flow's classifier can yield, as far as the safety rules
      depend on them. */
  predicate WellClassified(t: Task) {
    match t.flow
    case FailedSubscription => !t.reason.VoiceUnreachable?
    case MandateRetry => !t.reason.VoiceUnreachable?
    case PaymentDegradation => !t.reason.VoiceUnreachable?
    case CheckoutAbandonment =>
      t.reason in {CheckoutError, PaymentStepAbandoned, AddressAbandoned, SlowCheckout, PriceMismatch}
    case B2BReceivables => t.reason in {DisputedReceivable, OverdueNet30, OverdueNet60}
    case HinglishVoice => t.reason in {VoiceMissedCall, VoiceAskedCallBack, VoiceUnreachable}
    case PromiseToPay => t.reason in {PtpBroken, PtpMissed, PtpCommitted}
    case OtherFlow(_) => t.reason == BankDeclinedTransient
  }

  lemma PickBucketRange(code: string)
    ensures var r := PickBucketFromCode(code);
            r.Some? ==> r.value in {InsufficientFunds, CardExpired, Auth3dsAbandoned, BankDeclinedTransient,
                                    MandateRevoked, FraudFlagged, SuccessRateDrop, LatencySpike, IssuerDown}
  {
    hide Upper;
  }

  /** No flow other than subscriptions, mandates and payment degradation can ever
      carry a fraud or revoked-mandate bucket. */
  lemma ClassifierRange(e: Event)
    ensures WellClassified(Prepare(e))
    ensures Prepare(e).reason in {FraudFlagged, MandateRevoked} ==>
              e.flow in {FailedSubscription, MandateRetry, PaymentDegradation}
  {
    hide PickBucketFromCode, Contains, Lower, StrField, NumField, RetryWindowOf, ToInt64, Truncate;
    PickBucketRange(StrField(e.signal, "error_code"));
  }
}
