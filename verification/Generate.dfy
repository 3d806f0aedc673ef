/** Scaling the canonical batch to any number of events (go/rz/generate.go:50-102),
    with the rounded quotient taken exactly. */
module Generate {
  import opened Types

  /** The canonical counts of the seven flows. */
  function CanonicalCount(f: Flow): nat {
    match f
    case PaymentDegradation => 8
    case CheckoutAbandonment => 10
    case FailedSubscription => 12
    case B2BReceivables => 10
    case MandateRetry => 8
    case HinglishVoice => 6
    case PromiseToPay => 6
    case OtherFlow(_) => 0
  }

  /** The canonical count of the flows from `i` on. */
  function CountFrom(i: nat): nat
    requires i <= |FLOW_TYPES|
    decreases |FLOW_TYPES| - i
  {
    if i == |FLOW_TYPES| then 0 else CanonicalCount(FLOW_TYPES[i]) + CountFrom(i + 1)
  }

  /** `total * count / 60`, rounded half up. */
  function RoundedShare(total: nat, count: nat): nat {
    (2 * total * count + 60) / 120
  }

  /** The counts handed out to the first `i` flows. */
  function Handed(counts: map<Flow, int>, i: nat): int
    requires i <= |FLOW_TYPES| && forall j :: 0 <= j < i ==> FLOW_TYPES[j] in counts
  {
    if i == 0 then 0 else Handed(counts, i - 1) + counts[FLOW_TYPES[i - 1]]
  }

  /** Sixty times how far a count is from its exact share. */
  function Error(total: nat, f: Flow, count: int): int { 60 * count - total * CanonicalCount(f) }

  lemma RoundingError(total: nat, count: nat)
    ensures -30 <= 60 * RoundedShare(total, count) - total * count <= 30
    ensures total % 60 == 0 ==> 60 * RoundedShare(total, count) == total * count
  {
    var x := total * count;
    assert RoundedShare(total, count) == (2 * x + 60) / 120;
    if total % 60 == 0 {
      assert x == 60 * ((total / 60) * count);
    }
  }

  lemma CanonicalTotal()
    ensures CountFrom(0) == 60
  {
    assert CountFrom(6) == 6 && CountFrom(5) == 12 && CountFrom(4) == 20;
    assert CountFrom(3) == 30 && CountFrom(2) == 42 && CountFrom(1) == 52;
  }

  lemma HandedKeeps(counts: map<Flow, int>, i: nat, n: nat, share: int)
    requires i <= n < |FLOW_TYPES| && forall j :: 0 <= j < i ==> FLOW_TYPES[j] in counts
    ensures Handed(counts[FLOW_TYPES[n] := share], i) == Handed(counts, i)
  {
    if i > 0 {
      HandedKeeps(counts, i - 1, n, share);
      FlowsDiffer(i - 1, n);
    }
  }

  /** What is left after flow `i` is as close to its exact value as before, plus one
      rounding - also when the share had to be clamped. */
  lemma ShareStep(total: nat, i: nat, remaining: nat)
    requires i < |FLOW_TYPES|
    requires -30 * i <= 60 * remaining - total * CountFrom(i) <= 30 * i
    requires total % 60 == 0 ==> 60 * remaining == total * CountFrom(i)
    ensures var f := FLOW_TYPES[i];
            var rounded := RoundedShare(total, CanonicalCount(f));
            var share := if rounded > remaining then remaining else rounded;
            && -30 * (i + 1) <= 60 * (remaining - share) - total * CountFrom(i + 1) <= 30 * (i + 1)
            && (total % 60 == 0 ==> 60 * (remaining - share) == total * CountFrom(i + 1) && Error(total, f, share) == 0)
            && -30 * (i + 1) <= Error(total, f, share) <= 30
  {
    hide CountFrom, CanonicalCount, RoundedShare;
    var w, rest := CanonicalCount(FLOW_TYPES[i]), CountFrom(i + 1);
    SplitCount(total, i);
    RoundingError(total, w);
    ClampedError(remaining, RoundedShare(total, w), total * w, total * rest, i);
  }

  lemma SplitCount(total: nat, i: nat)
    requires i < |FLOW_TYPES|
    ensures total * CountFrom(i) == total * CanonicalCount(FLOW_TYPES[i]) + total * CountFrom(i + 1)
    ensures total * CanonicalCount(FLOW_TYPES[i]) >= 0 && total * CountFrom(i + 1) >= 0
  {
    var w, rest := CanonicalCount(FLOW_TYPES[i]), CountFrom(i + 1);
    assert CountFrom(i) == w + rest;
    hide CountFrom, CanonicalCount;
    assert total * (w + rest) == total * w + total * rest;
  }

  /** The arithmetic of one share: `x` is sixty times the exact share and `y` sixty
      times the exact rest. */
  lemma ClampedError(remaining: nat, rounded: nat, x: nat, y: nat, i: nat)
    requires -30 * i <= 60 * remaining - (x + y) <= 30 * i && -30 <= 60 * rounded - x <= 30
    ensures var share := if rounded > remaining then remaining else rounded;
            && -30 * (i + 1) <= 60 * (remaining - share) - y <= 30 * (i + 1)
            && -30 * (i + 1) <= 60 * share - x <= 30
            && (60 * remaining == x + y && 60 * rounded == x ==> 60 * (remaining - share) == y && 60 * share == x)
  {
  }

  /** The first `i` flows have their counts, and what remains is as close to its
      exact value as `i` roundings allow. */
  predicate HandedOut(counts: map<Flow, int>, total: nat, remaining: int, i: nat) {
    && i <= |FLOW_TYPES| && remaining >= 0
    && (forall j :: 0 <= j < i ==> FLOW_TYPES[j] in counts && CountIsClose(counts, total, j))
    && Handed(counts, i) == total - remaining
    && (if i == |FLOW_TYPES| then remaining == 0
        else RestIsClose(total, remaining, i))
  }

  predicate CountIsClose(counts: map<Flow, int>, total: nat, j: nat)
    requires j < |FLOW_TYPES| && FLOW_TYPES[j] in counts
  {
    var count := counts[FLOW_TYPES[j]];
    && count >= 0 && -180 <= Error(total, FLOW_TYPES[j], count) <= 180
    && (total % 60 == 0 ==> Error(total, FLOW_TYPES[j], count) == 0)
  }

  predicate RestIsClose(total: nat, remaining: int, i: nat)
    requires i < |FLOW_TYPES|
  {
    && -30 * i <= 60 * remaining - total * CountFrom(i) <= 30 * i
    && (total % 60 == 0 ==> 60 * remaining == total * CountFrom(i))
  }

  /** The share a flow is given when `remaining` is left. */
  function ShareOf(total: nat, i: nat, remaining: nat): nat
    requires i < |FLOW_TYPES|
  {
    var rounded := RoundedShare(total, CanonicalCount(FLOW_TYPES[i]));
    if i == |FLOW_TYPES| - 1 || rounded > remaining then remaining else rounded
  }

  /** What is left for the flows from `i` on, and the count of flow `i`. */
  function RemainingAt(total: nat, i: nat): nat
    requires i <= |FLOW_TYPES|
  {
    if i == 0 then total else RemainingAt(total, i - 1) - ShareOf(total, i - 1, RemainingAt(total, i - 1))
  }

  function CountOf(total: nat, i: nat): nat
    requires i < |FLOW_TYPES|
  {
    ShareOf(total, i, RemainingAt(total, i))
  }

  /** The first `i` flows have exactly their counts. */
  predicate CountsAre(counts: map<Flow, int>, total: nat, remaining: int, i: nat) {
    && i <= |FLOW_TYPES| && remaining == RemainingAt(total, i)
    && forall j :: 0 <= j < i ==> FLOW_TYPES[j] in counts && counts[FLOW_TYPES[j]] == CountOf(total, j)
  }

  lemma CountsAreNext(counts: map<Flow, int>, total: nat, remaining: nat, i: nat)
    requires CountsAre(counts, total, remaining, i) && i < |FLOW_TYPES|
    ensures var share := ShareOf(total, i, remaining);
            CountsAre(counts[FLOW_TYPES[i] := share], total, remaining - share, i + 1)
  {
    hide ShareOf, CountOf;
    assert CountOf(total, i) == ShareOf(total, i, remaining) by { CountIsShare(total, i); }
    forall j | 0 <= j < i { FlowsDiffer(j, i); }
  }

  lemma CountIsShare(total: nat, i: nat)
    requires i < |FLOW_TYPES|
    ensures CountOf(total, i) == ShareOf(total, i, RemainingAt(total, i))
  {
  }

  lemma NoCountsYet(total: nat)
    ensures CountsAre(map[], total, total, 0)
  {
  }

  lemma AllCountsAre(counts: map<Flow, int>, total: nat, remaining: int)
    requires CountsAre(counts, total, remaining, |FLOW_TYPES|)
    ensures forall i :: 0 <= i < |FLOW_TYPES| ==> FLOW_TYPES[i] in counts && counts[FLOW_TYPES[i]] == CountOf(total, i)
  {
  }

  lemma NothingHanded(total: nat)
    ensures HandedOut(map[], total, total, 0)
  {
    CanonicalTotal();
    hide CountFrom;
  }

  lemma ShareIsClose(total: nat, i: nat, remaining: nat)
    requires i < |FLOW_TYPES| && RestIsClose(total, remaining, i)
    ensures var share := ShareOf(total, i, remaining);
            && share <= remaining && -180 <= Error(total, FLOW_TYPES[i], share) <= 180
            && (total % 60 == 0 ==> Error(total, FLOW_TYPES[i], share) == 0)
            && (if i == |FLOW_TYPES| - 1 then share == remaining else RestIsClose(total, remaining - share, i + 1))
  {
    hide CountFrom, CanonicalCount, RoundedShare, Error;
    if i == |FLOW_TYPES| - 1 {
      LastShare(total, remaining);
    } else {
      ShareStep(total, i, remaining);
    }
  }

  lemma HandsOutOne(counts: map<Flow, int>, total: nat, remaining: nat, i: nat)
    requires HandedOut(counts, total, remaining, i) && i < |FLOW_TYPES|
    ensures var share := ShareOf(total, i, remaining);
            HandedOut(counts[FLOW_TYPES[i] := share], total, remaining - share, i + 1)
  {
    hide CountFrom, CanonicalCount, RoundedShare, Error, RestIsClose, ShareOf;
    ShareIsClose(total, i, remaining);
    var share := ShareOf(total, i, remaining);
    HandedKeeps(counts, i, i, share);
    forall j | 0 <= j < i { FlowsDiffer(j, i); }
  }

  /** The counts are those of `CountOf`: non-negative, summing to exactly `total`, every
      flow within 3 events of its exact share - exactly on it when `total` is a multiple of 60.
      A total that is not positive gives the canonical counts. */
  method ScaleFlowCounts(total: int) returns (counts: map<Flow, int>)
    ensures forall i :: 0 <= i < |FLOW_TYPES| ==> FLOW_TYPES[i] in counts && counts[FLOW_TYPES[i]] >= 0
    ensures Handed(counts, |FLOW_TYPES|) == if total <= 0 then 60 else total
    ensures total > 0 ==> forall i :: 0 <= i < |FLOW_TYPES| ==> counts[FLOW_TYPES[i]] == CountOf(total, i)
    ensures total <= 0 ==> forall i :: 0 <= i < |FLOW_TYPES| ==> counts[FLOW_TYPES[i]] == CanonicalCount(FLOW_TYPES[i])
    ensures total > 0 ==>
              forall i :: 0 <= i < |FLOW_TYPES| ==> -180 <= Error(total, FLOW_TYPES[i], counts[FLOW_TYPES[i]]) <= 180
    ensures total > 0 && total % 60 == 0 ==>
              forall i :: 0 <= i < |FLOW_TYPES| ==> Error(total, FLOW_TYPES[i], counts[FLOW_TYPES[i]]) == 0
  {
    hide HandedOut, CanonicalCount, RoundedShare, Error, Handed, CountsAre, CountOf;
    if total <= 0 {
      counts := map f | f in FLOW_TYPES :: CanonicalCount(f);
      CanonicalHanded(counts, |FLOW_TYPES|);
      CanonicalTotal();
      return;
    }
    counts := map[];
    var remaining := total;
    NothingHanded(total);
    NoCountsYet(total);
    for i := 0 to |FLOW_TYPES|
      invariant HandedOut(counts, total, remaining, i)
      invariant CountsAre(counts, total, remaining, i)
      invariant remaining >= 0
    {
      HandsOutOne(counts, total, remaining, i);
      CountsAreNext(counts, total, remaining, i);
      var share := remaining;
      if i < |FLOW_TYPES| - 1 {
        share := RoundedShare(total, CanonicalCount(FLOW_TYPES[i]));
        if share > remaining {
          share := remaining;
        }
      }
      counts := counts[FLOW_TYPES[i] := share];
      remaining := remaining - share;
      RestIsNatural(counts, total, remaining, i + 1);
    }
    AllHanded(counts, total, remaining);
    AllCountsAre(counts, total, remaining);
  }

  lemma RestIsNatural(counts: map<Flow, int>, total: nat, remaining: int, i: nat)
    requires HandedOut(counts, total, remaining, i)
    ensures remaining >= 0
  {
  }

  lemma AllHanded(counts: map<Flow, int>, total: nat, remaining: int)
    requires HandedOut(counts, total, remaining, |FLOW_TYPES|)
    ensures forall i :: 0 <= i < |FLOW_TYPES| ==> FLOW_TYPES[i] in counts && CountIsClose(counts, total, i)
    ensures Handed(counts, |FLOW_TYPES|) == total
  {
    hide Error, Handed;
  }

  lemma LastShare(total: nat, remaining: nat)
    requires -180 <= 60 * remaining - total * CountFrom(6) <= 180
    ensures -180 <= Error(total, FLOW_TYPES[6], remaining) <= 180
    ensures 60 * remaining == total * CountFrom(6) ==> Error(total, FLOW_TYPES[6], remaining) == 0
  {
    assert CountFrom(6) == CanonicalCount(FLOW_TYPES[6]);
  }

  lemma {:induction false} CanonicalHanded(counts: map<Flow, int>, i: nat)
    requires i <= |FLOW_TYPES| && forall f :: f in FLOW_TYPES ==> f in counts && counts[f] == CanonicalCount(f)
    ensures Handed(counts, i) + CountFrom(i) == CountFrom(0)
  {
    hide CanonicalCount;
    if i > 0 {
      CanonicalHanded(counts, i - 1);
      assert CountFrom(i - 1) == CanonicalCount(FLOW_TYPES[i - 1]) + CountFrom(i);
      assert FLOW_TYPES[i - 1] in FLOW_TYPES;
    }
  }
}
