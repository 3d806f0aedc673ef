/** Sorting rows by the name of their flow (go/rz/metrics.go:122-124). */
module Sorting {
  import opened Types

  function FlowName(f: Flow): string {
    match f
    case PaymentDegradation => "payment_degradation"
    case CheckoutAbandonment => "checkout_abandonment"
    case FailedSubscription => "failed_subscription"
    case B2BReceivables => "b2b_receivables"
    case MandateRetry => "mandate_retry"
    case HinglishVoice => "hinglish_voice"
    case PromiseToPay => "promise_to_pay"
    case OtherFlow(name) => name
  }

  /** The order in which the known flows come out. */
  lemma KnownFlowsInOrder()
    ensures Before(B2BReceivables, CheckoutAbandonment) && Before(CheckoutAbandonment, FailedSubscription)
    ensures Before(FailedSubscription, HinglishVoice) && Before(HinglishVoice, MandateRetry)
    ensures Before(MandateRetry, PaymentDegradation) && Before(PaymentDegradation, PromiseToPay)
  {
    PaymentsBeforePromises();
    hide AtMost;
    FirstLetterDecides(FlowName(B2BReceivables), FlowName(CheckoutAbandonment));
    FirstLetterDecides(FlowName(CheckoutAbandonment), FlowName(FailedSubscription));
    FirstLetterDecides(FlowName(FailedSubscription), FlowName(HinglishVoice));
    FirstLetterDecides(FlowName(HinglishVoice), FlowName(MandateRetry));
    FirstLetterDecides(FlowName(MandateRetry), FlowName(PaymentDegradation));
  }

  lemma FirstLetterDecides(a: string, b: string)
    requires a != "" && b != "" && a[0] < b[0]
    ensures AtMost(a, b) && !AtMost(b, a)
  {
  }

  lemma PaymentsBeforePromises()
    ensures Before(PaymentDegradation, PromiseToPay)
  {
    var a, b := FlowName(PaymentDegradation), FlowName(PromiseToPay);
    assert a[0] == b[0] == 'p' && a[1..][0] == 'a' && b[1..][0] == 'r';
  }

  predicate Before(f: Flow, g: Flow) { AtMost(FlowName(f), FlowName(g)) && !AtMost(FlowName(g), FlowName(f)) }

  /** The lexicographic order of strings. */
  predicate AtMost(a: string, b: string) {
    a == "" || (b != "" && (a[0] < b[0] || (a[0] == b[0] && AtMost(a[1..], b[1..]))))
  }

  lemma {:induction false} AtMostIsTotal(a: string, b: string)
    ensures AtMost(a, b) || AtMost(b, a)
  {
    if a != "" && b != "" && a[0] == b[0] {
      AtMostIsTotal(a[1..], b[1..]);
    }
  }

  lemma {:induction false} AtMostIsTransitive(a: string, b: string, c: string)
    requires AtMost(a, b) && AtMost(b, c)
    ensures AtMost(a, c)
  {
    if a != "" && b != "" && c != "" && a[0] == b[0] == c[0] {
      AtMostIsTransitive(a[1..], b[1..], c[1..]);
    }
  }

  predicate InOrder(r: Row, q: Row) { AtMost(FlowName(r.flow), FlowName(q.flow)) }

  predicate SortedByFlow(rows: seq<Row>) {
    forall i, j :: 0 <= i < j < |rows| ==> InOrder(rows[i], rows[j])
  }

  /** Where a row belongs: everything before it is in order with it, and it is in
      order with everything after it. */
  predicate BelongsAt(rows: seq<Row>, r: Row, k: nat) {
    && k <= |rows|
    && (forall i :: 0 <= i < k ==> InOrder(rows[i], r))
    && (forall i :: k <= i < |rows| ==> InOrder(r, rows[i]))
  }

  method FindPlace(rows: seq<Row>, r: Row) returns (k: nat)
    requires SortedByFlow(rows)
    ensures BelongsAt(rows, r, k)
  {
    hide InOrder;
    k := |rows|;
    while k > 0 && !InOrder(rows[k - 1], r)
      invariant k <= |rows|
      invariant forall i :: k <= i < |rows| ==> InOrder(r, rows[i])
    {
      OneOrder(rows[k - 1], r);
      k := k - 1;
    }
    forall i | 0 <= i < k ensures InOrder(rows[i], r) {
      if i < k - 1 {
        OrderIsTransitive(rows[i], rows[k - 1], r);
      }
    }
  }

  lemma OneOrder(r: Row, q: Row)
    ensures InOrder(r, q) || InOrder(q, r)
  {
    AtMostIsTotal(FlowName(r.flow), FlowName(q.flow));
  }

  lemma OrderIsTransitive(r: Row, q: Row, p: Row)
    requires InOrder(r, q) && InOrder(q, p)
    ensures InOrder(r, p)
  {
    AtMostIsTransitive(FlowName(r.flow), FlowName(q.flow), FlowName(p.flow));
  }

  lemma InsertedIsSorted(rows: seq<Row>, r: Row, k: nat)
    requires SortedByFlow(rows) && BelongsAt(rows, r, k)
    ensures SortedByFlow(rows[..k] + [r] + rows[k..])
    ensures multiset(rows[..k] + [r] + rows[k..]) == multiset(rows) + multiset{r}
  {
    hide InOrder;
    assert rows == rows[..k] + rows[k..];
  }

  /** The same rows, in the order of their flows' names. */
  method SortByFlow(rows: seq<Row>) returns (sorted: seq<Row>)
    ensures SortedByFlow(sorted)
    ensures multiset(sorted) == multiset(rows)
  {
    hide SortedByFlow, BelongsAt;
    sorted := [];
    assert SortedByFlow([]) by { NothingToSort(); }
    for i := 0 to |rows|
      invariant SortedByFlow(sorted)
      invariant multiset(sorted) == multiset(rows[..i])
    {
      var k := FindPlace(sorted, rows[i]);
      PlaceIsInside(sorted, rows[i], k);
      InsertedIsSorted(sorted, rows[i], k);
      sorted := sorted[..k] + [rows[i]] + sorted[k..];
      assert rows[..i + 1] == rows[..i] + [rows[i]];
    }
    assert rows[..|rows|] == rows;
  }

  lemma NothingToSort()
    ensures SortedByFlow([])
  {
  }

  lemma PlaceIsInside(rows: seq<Row>, r: Row, k: nat)
    requires BelongsAt(rows, r, k)
    ensures k <= |rows|
  {
  }

  lemma WithoutIsRest<T>(a: seq<T>, b: seq<T>, k: nat)
    requires a != [] && k < |b| && b[k] == a[0] && multiset(a) == multiset(b)
    ensures multiset(a[1..]) == multiset(b[..k] + b[k + 1..])
  {
    var x, before, after := a[0], b[..k], b[k + 1..];
    assert a == [x] + a[1..];
    assert b == before + [x] + after;
    assert multiset(a) == multiset([x]) + multiset(a[1..]);
    assert multiset(b) == multiset(before) + multiset([x]) + multiset(after);
    assert multiset(before + after) == multiset(before) + multiset(after);
    assert multiset(a[1..]) == multiset(a) - multiset([x]);
  }

  lemma FilterAround<T(!new)>(b: seq<T>, k: nat, keep: T -> bool)
    requires k < |b|
    ensures |Filter(b, keep)| == |Filter(b[..k] + b[k + 1..], keep)| + (if keep(b[k]) then 1 else 0)
  {
    assert b == b[..k] + ([b[k]] + b[k + 1..]);
    FilterConcat(b[..k], [b[k]] + b[k + 1..], keep);
    FilterConcat(b[..k], b[k + 1..], keep);
    assert ([b[k]] + b[k + 1..])[1..] == b[k + 1..];
  }

  /** Counting elements does not depend on their order. */
  lemma {:induction false} FilterIgnoresOrder<T(!new)>(a: seq<T>, b: seq<T>, keep: T -> bool)
    requires multiset(a) == multiset(b)
    ensures |Filter(a, keep)| == |Filter(b, keep)|
    decreases a
  {
    hide Filter;
    if a == [] {
      assert |multiset(b)| == 0;
      assert b == a;
    } else {
      assert a[0] in multiset(b);
      var k :| 0 <= k < |b| && b[k] == a[0];
      WithoutIsRest(a, b, k);
      FilterIgnoresOrder(a[1..], b[..k] + b[k + 1..], keep);
      FilterAround(b, k, keep);
      FilterAround(a, 0, keep);
      assert a[..0] + a[1..] == a[1..];
    }
  }
}
