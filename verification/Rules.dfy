/** The tunable limits and the named stopping rules (go/rz/rules.go). */
module Rules {
  import opened Types
  import opened Classify

  datatype Tunables = Tunables(
    maxRetryAttempts: int, maxTouchesPerCustomer: int, checkoutReminderCap: int,
    maxVoiceCalls: int, cartIncentiveThreshold: int, ptpSupervisorThreshold: int,
    mandateWindowDays: int, receivableTier2Days: int)

  const DEFAULT_TUNABLES := Tunables(3, 3, 2, 2, 50000, 2000000, 3, 60)

  const DAY_MS := 86400000
  const HOUR_MS := 3600000
  const IST_OFFSET_MS := 19800000

  /** `now` is the batch time; `wall` the machine clock the rules fall back to
      when `now` is 0. */
  datatype Clock = Clock(now: int, wall: int) {
    function Effective(): int { if now == 0 then wall else now }
  }

  predicate AtTouchCap(p: Tunables, touches: int) { touches >= p.maxTouchesPerCustomer }

  predicate AtMaxRetryAttempts(p: Tunables, attempt: int) { attempt >= p.maxRetryAttempts }

  predicate IsFraudFlagged(r: Reason) { r.FraudFlagged? }

  predicate IsMandateRevoked(r: Reason) { r.MandateRevoked? }

  predicate HasActivePromiseToPay(ptp: Option<int>, now: int) { ptp.Some? && ptp.value > now }

  predicate IsRetryable(r: Reason) {
    r.InsufficientFunds? || r.CardExpired? || r.BankDeclinedTransient? || r.Auth3dsAbandoned?
  }

  function MaxBatchAttempts(p: Tunables): int { 60 * p.maxRetryAttempts }

  // ---------- mandate retry window ----------

  /** Length of the retry sequence: one slot a day, at least one. */
  function SequenceLength(p: Tunables): (n: nat)
    ensures n >= 1
  {
    if p.mandateWindowDays < 1 then 1 else p.mandateWindowDays
  }

  /** Go's integer division: towards zero. */
  function TruncDiv(a: int, b: int): int
    requires b > 0
  {
    if a >= 0 then a / b else -((-a) / b)
  }

  predicate IsWithinMandateRetryWindow(now: int, w: Option<Window>) {
    w.Some? && w.value.start <= now <= w.value.end
  }

  function DayOffset(now: int, w: Window): int { TruncDiv(now - w.start, DAY_MS) }

  predicate MandateRetryAttemptAllowed(p: Tunables, attempt: int, now: int, w: Option<Window>) {
    w.Some? && 0 <= DayOffset(now, w.value) < SequenceLength(p) && attempt <= DayOffset(now, w.value)
  }

  method MandateRetrySequenceMs(p: Tunables) returns (sequence: seq<int>)
    ensures |sequence| == SequenceLength(p)
    ensures forall d :: 0 <= d < |sequence| ==> sequence[d] == d * DAY_MS
  {
    var days := if p.mandateWindowDays < 1 then 1 else p.mandateWindowDays;
    sequence := [0];
    for d := 1 to days
      invariant |sequence| == d
      invariant forall j :: 0 <= j < d ==> sequence[j] == j * DAY_MS
    {
      sequence := sequence + [d * 24 * 3600 * 1000];
    }
  }

  // ---------- checkout, receivables, degradation ----------

  predicate AtCheckoutReminderCap(p: Tunables, sent: int) { sent >= p.checkoutReminderCap }

  predicate IsRepeatVisitor(visits: int) { (if visits == 0 then 1 else visits) >= 2 }

  predicate CartEligibleForIncentive(p: Tunables, cart: int) { cart >= p.cartIncentiveThreshold }

  function ReceivableTier(p: Tunables, overdueDays: int): int {
    if overdueDays < 30 then 0
    else if overdueDays < p.receivableTier2Days then 1
    else if overdueDays < p.receivableTier2Days * 2 then 2
    else 3
  }

  predicate SuccessRateBelowThreshold(rate: real) { rate < 0.85 }

  // ---------- voice ----------

  predicate AtVoiceCallCap(p: Tunables, calls: int) { calls >= p.maxVoiceCalls }

  function IstHour(ms: int): int { ((ms + IST_OFFSET_MS) / HOUR_MS) % 24 }

  predicate IsQuietHour(ms: int) { IstHour(ms) >= 21 || IstHour(ms) < 9 }

  predicate IsDoNotCall(dnc: bool, now: int) { dnc || (now != 0 && IsQuietHour(now)) }

  // ---------- promise to pay ----------

  predicate PtpReminderDue(now: int, ptp: int) { ptp - DAY_MS <= now < ptp }

  predicate PtpNeedsSupervisor(p: Tunables, amount: int) { amount >= p.ptpSupervisorThreshold }
}
