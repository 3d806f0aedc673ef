/** What the engine makes of a raw event: the bucket that its signal yields
    (go/rz/classify.go), and when its customer is touched, both read off the signal
    itself (go/rz/runner.go:244-273, go/rz/engines.go). */
module Signals {
  import opened Types
  import opened Classify

  // ---------- reading a signal ----------

  /** The same letter in either case. */
  predicate SameLetter(a: char, b: char) {
    || a == b
    || ('a' <= a <= 'z' && a as int - 32 == b as int)
    || ('a' <= b <= 'z' && b as int - 32 == a as int)
  }

  /** The word in any letter case. */
  predicate Spells(text: string, word: string) {
    |text| == |word| && forall i :: 0 <= i < |text| ==> SameLetter(text[i], word[i])
  }

  predicate Coded(s: Signal, words: set<string>) {
    "error_code" in s && s["error_code"].Text? && exists w :: w in words && Spells(s["error_code"].s, w)
  }

  /** The word occurs somewhere in the error's description or reason. */
  predicate Speaks(s: Signal, word: string) {
    Occurs(StrField(s, "error_description") + " " + StrField(s, "error_reason"), word)
  }

  predicate SpellsAt(text: string, i: nat, word: string) {
    i + |word| <= |text| && Spells(text[i..i + |word|], word)
  }

  predicate Occurs(text: string, word: string) { exists i: nat :: i <= |text| && SpellsAt(text, i, word) }

  predicate HasText(s: Signal, key: string) { key in s && s[key].Text? && s[key].s != "" }

  predicate TextIs(s: Signal, key: string, text: string) { key in s && s[key] == Text(text) }

  predicate Flagged(s: Signal, key: string) { key in s && s[key] == Bool(true) }

  predicate TextHas(s: Signal, key: string, word: string) { key in s && s[key].Text? && Contains(s[key].s, word) }

  predicate AtLeast(s: Signal, key: string, low: real) { key in s && s[key].Number? && s[key].n >= low }

  // ---------- the buckets of the payment flows ----------

  function CodesOf(r: Reason): set<string> {
    match r
    case InsufficientFunds => {"BAD_REQUEST_ERROR", "CARD_DECLINED"}
    case CardExpired => {"CARD_EXPIRED", "CARD_EXPIRED_CODE"}
    case Auth3dsAbandoned =>
      {"DIRECTORAUTHPARAM_FAILED", "AUTH_FAILED", "DIRECTAUTHPARAM_FAILED", "CUSTOMER_ABANDONED", "AUTH_ACCEPTED_LATER"}
    case BankDeclinedTransient =>
      {"ISSUER_UNAVAILABLE", "UNAUTHORIZED_PAYMENT", "PAYMENT_AUTHENTICATION_FAILED", "BANK_REFUND_DECLINED",
       "NETWORK_ERROR"}
    case MandateRevoked => {"MANDATE_REVOKED", "MANDATE_INVALID", "MANDATE_CANCELLED"}
    case FraudFlagged => {"FRAUD_DETECTED", "RISK_DECLINE"}
    case SuccessRateDrop => {"SUCCESS_RATE_DROP"}
    case LatencySpike => {"LATENCY_SPIKE"}
    case IssuerDown => {"ISSUER_DOWN"}
    case _ => {}
  }

  predicate NoLower(w: string) { forall i :: 0 <= i < |w| ==> !('a' <= w[i] <= 'z') }

  predicate NoUpper(w: string) { forall i :: 0 <= i < |w| ==> !('A' <= w[i] <= 'Z') }

  lemma SpellsUpper(text: string, word: string)
    requires NoLower(word)
    ensures Spells(text, word) <==> Upper(text) == word
  {
    if Spells(text, word) {
      forall i | 0 <= i < |text| ensures Upper(text)[i] == word[i] {
        assert SameLetter(text[i], word[i]);
      }
    }
    if Upper(text) == word {
      forall i | 0 <= i < |text| ensures SameLetter(text[i], word[i]) {
        assert Upper(text)[i] == word[i];
      }
    }
  }

  lemma SpellsLower(text: string, word: string)
    requires NoUpper(word)
    ensures Spells(text, word) <==> Lower(text) == word
  {
    if Spells(text, word) {
      forall i | 0 <= i < |text| ensures Lower(text)[i] == word[i] {
        assert SameLetter(text[i], word[i]);
      }
    }
    if Lower(text) == word {
      forall i | 0 <= i < |text| ensures SameLetter(text[i], word[i]) {
        assert Lower(text)[i] == word[i];
      }
    }
  }

  lemma OccursLower(text: string, word: string)
    requires NoUpper(word)
    ensures Occurs(text, word) <==> Contains(Lower(text), word)
  {
    forall i: nat | i <= |text| ensures SpellsAt(text, i, word) <==> PartAt(Lower(text), i, word) {
      if i + |word| <= |text| {
        SpellsLower(text[i..i + |word|], word);
        assert Lower(text)[i..i + |word|] == Lower(text[i..i + |word|]);
      }
    }
    hide SpellsAt, PartAt;
  }

  lemma CodesAreUpper(r: Reason, w: string)
    requires w in CodesOf(r)
    ensures NoLower(w) && w != ""
  {
    hide NoLower;
    match r {
      case InsufficientFunds => FundsCodesAreUpper(w);
      case CardExpired => ExpiredCodesAreUpper(w);
      case Auth3dsAbandoned => AuthCodesAreUpper(w);
      case BankDeclinedTransient => BankCodesAreUpper(w);
      case MandateRevoked => MandateCodesAreUpper(w);
      case _ => OtherCodesAreUpper(w);
    }
  }

  lemma FundsCodesAreUpper(w: string)
    requires w in {"BAD_REQUEST_ERROR", "CARD_DECLINED"}
    ensures NoLower(w) && w != ""
  {
  }

  lemma ExpiredCodesAreUpper(w: string)
    requires w in {"CARD_EXPIRED", "CARD_EXPIRED_CODE"}
    ensures NoLower(w) && w != ""
  {
  }

  lemma AuthCodesAreUpper(w: string)
    requires w in {"DIRECTORAUTHPARAM_FAILED", "AUTH_FAILED", "DIRECTAUTHPARAM_FAILED", "CUSTOMER_ABANDONED",
                   "AUTH_ACCEPTED_LATER"}
    ensures NoLower(w) && w != ""
  {
    hide NoLower;
    if w == "CUSTOMER_ABANDONED" || w == "AUTH_ACCEPTED_LATER" {
      AbandonedCodesAreUpper(w);
    } else {
      FailedCodesAreUpper(w);
    }
  }

  lemma AbandonedCodesAreUpper(w: string)
    requires w == "CUSTOMER_ABANDONED" || w == "AUTH_ACCEPTED_LATER"
    ensures NoLower(w) && w != ""
  {
  }

  lemma FailedCodesAreUpper(w: string)
    requires w == "DIRECTORAUTHPARAM_FAILED" || w == "AUTH_FAILED" || w == "DIRECTAUTHPARAM_FAILED"
    ensures NoLower(w) && w != ""
  {
  }

  lemma BankCodesAreUpper(w: string)
    requires w in {"ISSUER_UNAVAILABLE", "UNAUTHORIZED_PAYMENT", "PAYMENT_AUTHENTICATION_FAILED",
                   "BANK_REFUND_DECLINED", "NETWORK_ERROR"}
    ensures NoLower(w) && w != ""
  {
    hide NoLower;
    if w == "BANK_REFUND_DECLINED" || w == "NETWORK_ERROR" {
      DeclinedCodesAreUpper(w);
    } else {
      UnavailableCodesAreUpper(w);
    }
  }

  lemma DeclinedCodesAreUpper(w: string)
    requires w == "BANK_REFUND_DECLINED" || w == "NETWORK_ERROR"
    ensures NoLower(w) && w != ""
  {
  }

  lemma UnavailableCodesAreUpper(w: string)
    requires w == "ISSUER_UNAVAILABLE" || w == "UNAUTHORIZED_PAYMENT" || w == "PAYMENT_AUTHENTICATION_FAILED"
    ensures NoLower(w) && w != ""
  {
    if w == "PAYMENT_AUTHENTICATION_FAILED" {
      assert NoLower("PAYMENT_AUTHENTICATION_FAILED");
    } else {
      UnpaidCodesAreUpper(w);
      hide NoLower;
    }
  }

  lemma UnpaidCodesAreUpper(w: string)
    requires w == "ISSUER_UNAVAILABLE" || w == "UNAUTHORIZED_PAYMENT"
    ensures NoLower(w) && w != ""
  {
  }

  lemma MandateCodesAreUpper(w: string)
    requires w in {"MANDATE_REVOKED", "MANDATE_INVALID", "MANDATE_CANCELLED"}
    ensures NoLower(w) && w != ""
  {
  }

  lemma OtherCodesAreUpper(w: string)
    requires w in {"FRAUD_DETECTED", "RISK_DECLINE", "SUCCESS_RATE_DROP", "LATENCY_SPIKE", "ISSUER_DOWN"}
    ensures NoLower(w) && w != ""
  {
  }

  lemma PickIsTable(code: string, r: Reason)
    ensures PickBucketFromCode(code) == Some(r) <==> Upper(code) in CodesOf(r)
  {
    hide Upper;
    if CodesOf(r) == {} {
      PickBucketRange(code);
      hide PickBucketFromCode;
    } else if r in {InsufficientFunds, CardExpired, Auth3dsAbandoned, BankDeclinedTransient} {
      PickRetryable(code, r);
      hide PickBucketFromCode;
    } else if r in {MandateRevoked, FraudFlagged} {
      PickFinal(code, r);
      hide PickBucketFromCode;
    } else if r.SuccessRateDrop? {
      PickDropped(code);
      hide PickBucketFromCode;
    } else {
      PickSlowed(code, r);
      hide PickBucketFromCode;
    }
    hide CodesOf;
  }

  lemma PickRetryable(code: string, r: Reason)
    requires r in {InsufficientFunds, CardExpired, Auth3dsAbandoned, BankDeclinedTransient}
    ensures PickBucketFromCode(code) == Some(r) <==> Upper(code) in CodesOf(r)
  {
    hide Upper;
  }

  lemma PickFinal(code: string, r: Reason)
    requires r in {MandateRevoked, FraudFlagged}
    ensures PickBucketFromCode(code) == Some(r) <==> Upper(code) in CodesOf(r)
  {
    hide Upper;
  }

  lemma PickDropped(code: string)
    ensures PickBucketFromCode(code) == Some(SuccessRateDrop) <==> Upper(code) in CodesOf(SuccessRateDrop)
  {
    hide Upper;
  }

  lemma PickSlowed(code: string, r: Reason)
    requires r in {LatencySpike, IssuerDown}
    ensures PickBucketFromCode(code) == Some(r) <==> Upper(code) in CodesOf(r)
  {
    hide Upper;
  }

  /** Each code word, in any letter case, yields its bucket, and no other word any. */
  lemma CodeBucket(code: string, r: Reason)
    ensures PickBucketFromCode(code) == Some(r) <==> exists w :: w in CodesOf(r) && Spells(code, w)
  {
    hide Upper, Spells, NoLower, PickBucketFromCode, CodesOf;
    forall w | w in CodesOf(r) ensures Spells(code, w) <==> Upper(code) == w {
      CodesAreUpper(r, w);
      SpellsUpper(code, w);
    }
    PickIsTable(code, r);
  }

  /** No known code, in any letter case. */
  predicate Uncoded(s: Signal) { forall r: Reason :: !Coded(s, CodesOf(r)) }

  lemma CodedIsPicked(s: Signal, r: Reason)
    ensures Coded(s, CodesOf(r)) <==> PickBucketFromCode(StrField(s, "error_code")) == Some(r)
  {
    hide PickBucketFromCode, CodesOf, Spells;
    CodeBucket(StrField(s, "error_code"), r);
    NothingSpelled(r);
  }

  lemma NothingSpelled(r: Reason)
    ensures forall w :: w in CodesOf(r) ==> !Spells("", w)
  {
    hide CodesOf, NoLower;
    forall w | w in CodesOf(r) ensures !Spells("", w) {
      CodesAreUpper(r, w);
    }
  }

  lemma UncodedIsUnpicked(s: Signal)
    ensures Uncoded(s) <==> PickBucketFromCode(StrField(s, "error_code")) == None
  {
    hide PickBucketFromCode, CodesOf, Coded, StrField;
    forall r: Reason ensures Coded(s, CodesOf(r)) <==> PickBucketFromCode(StrField(s, "error_code")) == Some(r) {
      CodedIsPicked(s, r);
    }
    var picked := PickBucketFromCode(StrField(s, "error_code"));
    if picked.Some? {
      assert Coded(s, CodesOf(picked.value));
    }
  }

  // ---------- which signal yields which bucket ----------

  predicate SpeaksOfFunds(s: Signal) { Speaks(s, "insufficient") || Speaks(s, "limit") }

  predicate SpeaksOfRevocation(s: Signal) {
    Speaks(s, "mandate") && (Speaks(s, "revoke") || Speaks(s, "cancel") || Speaks(s, "invalid"))
  }

  predicate SpeaksOfFraud(s: Signal) { Speaks(s, "fraud") || Speaks(s, "risk") || Speaks(s, "suspicious") }

  predicate SpeaksOfAbandoning(s: Signal) { Speaks(s, "abandoned") || Speaks(s, "3ds") || Speaks(s, "auth") }

  /** A failed charge: the code decides; without a known one, the first pattern that
      the description or reason speaks of. */
  predicate ChargeBucket(s: Signal, r: Reason) {
    || Coded(s, CodesOf(r))
    || (Uncoded(s) &&
        var funds, expired, revoked, fraud, abandoned :=
          SpeaksOfFunds(s), Speaks(s, "expired"), SpeaksOfRevocation(s), SpeaksOfFraud(s), SpeaksOfAbandoning(s);
        match r
        case InsufficientFunds => funds
        case CardExpired => !funds && expired
        case MandateRevoked => !funds && !expired && revoked
        case FraudFlagged => !funds && !expired && !revoked && fraud
        case Auth3dsAbandoned => !funds && !expired && !revoked && !fraud && abandoned
        case BankDeclinedTransient => !funds && !expired && !revoked && !fraud && !abandoned
        case _ => false)
  }

  /** A degradation: the code decides; without a known one, the rate, the latency and
      the issuer flag. A missing rate counts as a drop. */
  predicate DegradationBucket(s: Signal, r: Reason) {
    || Coded(s, CodesOf(r))
    || (Uncoded(s) &&
        var healthy, slow := AtLeast(s, "success_rate", 0.85), AtLeast(s, "latency_ms", 2000.0)
                             && s["latency_ms"].n != 2000.0;
        match r
        case SuccessRateDrop => !healthy
        case LatencySpike => healthy && slow
        case IssuerDown => healthy && !slow && Flagged(s, "issuer_down")
        case BankDeclinedTransient => healthy && !slow && !Flagged(s, "issuer_down")
        case _ => false)
  }

  predicate CheckoutBucket(s: Signal, r: Reason) {
    var payment := TextHas(s, "abandoned_at_step", "payment") || TextHas(s, "abandoned_at_step", "otp")
                   || TextHas(s, "abandoned_at_step", "upi");
    var address := TextHas(s, "abandoned_at_step", "address");
    var slow := AtLeast(s, "page_load_ms", 5000.0) && s["page_load_ms"].n != 5000.0;
    match r
    case CheckoutError => HasText(s, "error")
    case AddressAbandoned => !HasText(s, "error") && !payment && address
    case SlowCheckout => !HasText(s, "error") && !payment && !address && slow
    case PriceMismatch => !HasText(s, "error") && !payment && !address && !slow && Flagged(s, "price_mismatch")
    case PaymentStepAbandoned =>
      !HasText(s, "error") && (payment || (!address && !slow && !Flagged(s, "price_mismatch")))
    case _ => false
  }

  predicate Disputed(s: Signal) { Flagged(s, "disputed") || HasText(s, "dispute_note") }

  /** The bucket of an event, by its flow and its signal. */
  predicate Bucketed(flow: Flow, s: Signal, r: Reason) {
    match flow
    case FailedSubscription => ChargeBucket(s, r)
    case MandateRetry => ChargeBucket(s, r)
    case PaymentDegradation => DegradationBucket(s, r)
    case CheckoutAbandonment => CheckoutBucket(s, r)
    case B2BReceivables =>
      || (r.DisputedReceivable? && Disputed(s))
      || (r.OverdueNet60? && !Disputed(s) && AtLeast(s, "overdue_days", 60.0))
      || (r.OverdueNet30? && !Disputed(s) && !AtLeast(s, "overdue_days", 60.0))
    case HinglishVoice =>
      var missed := TextIs(s, "call_state", "missed") || TextIs(s, "call_state", "no_answer");
      var callBack := TextIs(s, "call_state", "call_back_requested");
      (r.VoiceMissedCall? && missed) || (r.VoiceAskedCallBack? && callBack)
      || (r.VoiceUnreachable? && !missed && !callBack)
    case PromiseToPay =>
      var broken, missed := TextIs(s, "ptp_status", "broken"), TextIs(s, "ptp_status", "missed");
      (r.PtpBroken? && broken) || (r.PtpMissed? && missed) || (r.PtpCommitted? && !broken && !missed)
    case OtherFlow(_) => r.BankDeclinedTransient?
  }

  lemma SpokenIsContained(s: Signal, word: string)
    requires NoUpper(word)
    ensures Speaks(s, word)
       <==> Contains(Lower(StrField(s, "error_description") + " " + StrField(s, "error_reason")), word)
  {
    hide Lower, Occurs, Contains;
    OccursLower(StrField(s, "error_description") + " " + StrField(s, "error_reason"), word);
  }

  lemma PatternsAreLower()
    ensures NoUpper("insufficient") && NoUpper("limit") && NoUpper("expired") && NoUpper("mandate")
    ensures NoUpper("revoke") && NoUpper("cancel") && NoUpper("invalid") && NoUpper("fraud") && NoUpper("risk")
    ensures NoUpper("suspicious") && NoUpper("abandoned") && NoUpper("3ds") && NoUpper("auth")
  {
  }

  lemma ChargesAreBucketed(s: Signal, r: Reason)
    ensures ClassifySubscription(s) == r <==> ChargeBucket(s, r)
  {
    hide PickBucketFromCode, StrField, Lower, Contains, Speaks, Coded, CodesOf, Uncoded, NoUpper;
    CodedIsPicked(s, r);
    UncodedIsUnpicked(s);
    PatternsAreLower();
    SpokenIsContained(s, "insufficient");
    SpokenIsContained(s, "limit");
    SpokenIsContained(s, "expired");
    SpokenIsContained(s, "mandate");
    SpokenIsContained(s, "revoke");
    SpokenIsContained(s, "cancel");
    SpokenIsContained(s, "invalid");
    SpokenIsContained(s, "fraud");
    SpokenIsContained(s, "risk");
    SpokenIsContained(s, "suspicious");
    SpokenIsContained(s, "abandoned");
    SpokenIsContained(s, "3ds");
    SpokenIsContained(s, "auth");
  }

  lemma DegradationsAreBucketed(s: Signal, r: Reason)
    ensures ClassifyDegradation(s) == r <==> DegradationBucket(s, r)
  {
    hide PickBucketFromCode, StrField, Coded, CodesOf, Uncoded;
    CodedIsPicked(s, r);
    UncodedIsUnpicked(s);
  }

  lemma CheckoutsAreBucketed(s: Signal, r: Reason)
    ensures ClassifyCheckout(s) == r <==> CheckoutBucket(s, r)
  {
    NothingInNothing("payment");
    NothingInNothing("otp");
    NothingInNothing("upi");
    NothingInNothing("address");
    hide Contains;
  }

  lemma NothingInNothing(word: string)
    requires word != ""
    ensures !Contains("", word)
  {
  }

  lemma ReceivablesAreBucketed(s: Signal, r: Reason)
    ensures ClassifyReceivable(s) == r <==> Bucketed(B2BReceivables, s, r)
  {
  }

  lemma CallsAreBucketed(s: Signal, r: Reason)
    ensures ClassifyVoice(s) == r <==> Bucketed(HinglishVoice, s, r)
  {
  }

  lemma PromisesAreBucketed(s: Signal, r: Reason)
    ensures ClassifyPromiseToPay(s) == r <==> Bucketed(PromiseToPay, s, r)
  {
  }

  /** Classification, for every event and bucket: the bucket is the one that the
      signal's own codes, words, numbers and flags call for. */
  lemma BucketIsOfTheSignal(e: Event, r: Reason)
    ensures Prepare(e).reason == r <==> Bucketed(e.flow, e.signal, r)
  {
    hide ClassifySubscription, ClassifyDegradation, ClassifyCheckout, ClassifyReceivable, ClassifyVoice,
         ClassifyPromiseToPay, RetryWindowOf, ToInt64, Truncate, NumField, BoolField;
    hide Bucketed;
    match e.flow {
      case FailedSubscription => ChargeIsBucketed(e, r);
      case MandateRetry => ChargeIsBucketed(e, r);
      case PaymentDegradation => DegradationIsBucketed(e, r);
      case CheckoutAbandonment => CheckoutIsBucketed(e, r);
      case B2BReceivables => ReceivablesAreBucketed(e.signal, r);
      case HinglishVoice => CallsAreBucketed(e.signal, r);
      case PromiseToPay => PromisesAreBucketed(e.signal, r);
      case OtherFlow(_) => UnknownIsBucketed(e, r);
    }
  }

  lemma ChargeIsBucketed(e: Event, r: Reason)
    requires e.flow.FailedSubscription? || e.flow.MandateRetry?
    ensures ClassifySubscription(e.signal) == r <==> Bucketed(e.flow, e.signal, r)
  {
    hide ClassifySubscription, ChargeBucket;
    ChargesAreBucketed(e.signal, r);
  }

  lemma DegradationIsBucketed(e: Event, r: Reason)
    requires e.flow.PaymentDegradation?
    ensures ClassifyDegradation(e.signal) == r <==> Bucketed(e.flow, e.signal, r)
  {
    hide ClassifyDegradation, DegradationBucket;
    DegradationsAreBucketed(e.signal, r);
  }

  lemma CheckoutIsBucketed(e: Event, r: Reason)
    requires e.flow.CheckoutAbandonment?
    ensures ClassifyCheckout(e.signal) == r <==> Bucketed(e.flow, e.signal, r)
  {
    hide ClassifyCheckout, CheckoutBucket;
    CheckoutsAreBucketed(e.signal, r);
  }

  lemma UnknownIsBucketed(e: Event, r: Reason)
    requires e.flow.OtherFlow?
    ensures ClassifyEvent(e) == r <==> Bucketed(e.flow, e.signal, r)
  {
  }
}
