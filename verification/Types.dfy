/** The shared domain of the recovery engine (go/rz/types.go): flows, reason
    buckets, agent states, decisions, rules, and the rows of the audit log.
    The source's string enumerations are datatypes; every enumeration that a
    foreign log may extend has an `Other...` case. */
module Types {

  datatype Option<+T> = None | Some(value: T)

  datatype Flow =
    | PaymentDegradation
    | CheckoutAbandonment
    | FailedSubscription
    | B2BReceivables
    | MandateRetry
    | HinglishVoice
    | PromiseToPay
    | OtherFlow(name: string)

  const FLOW_TYPES := [
    PaymentDegradation, CheckoutAbandonment, FailedSubscription, B2BReceivables,
    MandateRetry, HinglishVoice, PromiseToPay]

  lemma FlowsDiffer(i: nat, j: nat)
    requires i < |FLOW_TYPES| && j < |FLOW_TYPES| && i != j
    ensures FLOW_TYPES[i] != FLOW_TYPES[j]
  {
  }

  /** The seven flows are all but the unknown ones. */
  lemma KnownFlowsAreListed()
    ensures forall f :: f in FLOW_TYPES <==> !f.OtherFlow?
  {
    assert FLOW_TYPES[0].PaymentDegradation? && FLOW_TYPES[1].CheckoutAbandonment? && FLOW_TYPES[2].FailedSubscription?;
    assert FLOW_TYPES[3].B2BReceivables? && FLOW_TYPES[4].MandateRetry? && FLOW_TYPES[5].HinglishVoice?;
    assert FLOW_TYPES[6].PromiseToPay?;
  }

  datatype Reason =
    | InsufficientFunds | CardExpired | MandateRevoked | BankDeclinedTransient
    | Auth3dsAbandoned | FraudFlagged | SuccessRateDrop | LatencySpike
    | IssuerDown | PriceMismatch | PaymentStepAbandoned | AddressAbandoned
    | SlowCheckout | CheckoutError | OverdueNet30 | OverdueNet60
    | DisputedReceivable | MandateInsufficient | MandateBankDown
    | MandateAuthPending | VoiceMissedCall | VoiceAskedCallBack
    | VoiceUnreachable | PtpCommitted | PtpMissed | PtpBroken

  datatype AgentState =
    | Detected | Diagnosed | RetryScheduled | Retrying | ContactScheduled
    | Contacting | WaitingOnPtp | Recovered | Escalated | Abandoned | Suppressed

  datatype Actor = PolicyEngine | LlmCopy | Human | Dialer | PaymentGateway

  datatype Decision =
    | Retry | Contact | Recover | Escalate | Suppress | Abandon | Hold | NoAction

  datatype RuleId =
    | RuleNoOp | RuleRecovered | RuleMaxTouchesCap | RuleFraudSuppress
    | RuleMandateRevokedEsc | RulePromiseToPaySuppress | RuleScheduleRetry
    | RuleTransientRetry | RuleExhaustAttemptsEscalate | RuleMandateRetryWindow
    | RuleMandateRetrySeq | RuleCheckoutReminder | RuleCartIncentive
    | RuleCheckoutAbandon | RuleRepeatVisitorOnly | RuleInvoiceReminder
    | RuleInvoiceEscalateDun | RuleDisputeHold | RuleDegradationAlert
    | RuleDegradationRecover | RuleDegradationEscalate | RuleVoiceCall
    | RuleVoiceRetry | RuleVoiceEscalateHuman | RuleVoiceDoNotCall
    | RulePtpSchedule | RulePtpSuppress | RulePtpFollowup
    | RulePtpReminderBefore | RulePtpMissedEscalate | RuleDuplicateSuppress
    | OtherRule(name: string)

  /** The empty channel string is `NoChannel`. */
  datatype Channel = NoChannel | Api | Voice | Email | Whatsapp | Sms

  /** The 17 payload fields of an audit entry; `timestamp` is the instant (epoch
      ms) that the ISO text denotes. */
  datatype Row = Row(
    eventId: string, timestamp: int, flow: Flow, reason: Reason, rule: RuleId,
    decision: Decision, actor: Actor, outcome: string, state: AgentState,
    attempt: Option<int>, amount: Option<int>, currency: string,
    invoiceId: string, customerId: string, channel: Channel, notes: string,
    triggeredBy: string)

  /** A stored entry: the payload plus the two hash-chain fields. */
  datatype Entry = Entry(row: Row, prevHash: string, hash: string)

  /** The states the metrics call terminal. */
  predicate IsTerminalState(s: AgentState) {
    s.Recovered? || s.Escalated? || s.Abandoned? || s.Suppressed?
  }

  /** The states at which the batch loop stops driving an event. */
  predicate RunningTerminal(s: AgentState) {
    IsTerminalState(s) || s.WaitingOnPtp?
  }

  predicate IsDuplicate(r: Row) {
    r.rule == RuleDuplicateSuppress
  }

  /** The payloads of a stored log. */
  function RowsOf(log: seq<Entry>): (rows: seq<Row>)
    ensures |rows| == |log|
    ensures forall i :: 0 <= i < |log| ==> rows[i] == log[i].row
  {
    seq(|log|, i requires 0 <= i < |log| => log[i].row)
  }

  /** The event ids that occur in a log. */
  function LoggedIds(log: seq<Entry>): (ids: set<string>)
    ensures forall i :: 0 <= i < |log| ==> log[i].row.eventId in ids
  {
    set i | 0 <= i < |log| :: log[i].row.eventId
  }

  /** Keeps the rows that satisfy `keep`, in order. */
  function Filter<T(!new)>(s: seq<T>, keep: T -> bool): (r: seq<T>)
    ensures forall x :: x in r <==> x in s && keep(x)
  {
    if s == [] then []
    else (if keep(s[0]) then [s[0]] else []) + Filter(s[1..], keep)
  }

  lemma {:induction false} FilterConcat<T(!new)>(a: seq<T>, b: seq<T>, keep: T -> bool)
    ensures Filter(a + b, keep) == Filter(a, keep) + Filter(b, keep)
  {
    if a == [] {
      assert a + b == b;
    } else {
      assert (a + b)[1..] == a[1..] + b;
      FilterConcat(a[1..], b, keep);
    }
  }

  lemma {:induction false} FilterAll<T(!new)>(s: seq<T>, keep: T -> bool)
    requires forall x :: x in s ==> keep(x)
    ensures Filter(s, keep) == s
  {
    if s != [] {
      FilterAll(s[1..], keep);
    }
  }

  lemma {:induction false} FilterNone<T(!new)>(s: seq<T>, keep: T -> bool)
    requires forall x :: x in s ==> !keep(x)
    ensures Filter(s, keep) == []
  {
    if s != [] {
      FilterNone(s[1..], keep);
    }
  }
}
