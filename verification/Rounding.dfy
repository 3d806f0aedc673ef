/** Whether the scaled batch is the largest-remainder apportionment that
    go/rz/generate.go:75 speaks of. */
module Rounding {
  import opened Types
  import opened Generate

  // ---------- what was promised ----------

  /** The whole part of a flow's exact share, and sixty times the fraction. */
  function Whole(total: nat, i: nat): nat
    requires i < |FLOW_TYPES|
  {
    total * CanonicalCount(FLOW_TYPES[i]) / 60
  }

  function Remainder(total: nat, i: nat): nat
    requires i < |FLOW_TYPES|
  {
    total * CanonicalCount(FLOW_TYPES[i]) % 60
  }

  /** Largest-remainder rounding: every count is its share rounded down or up, and
      no flow is rounded up before one with a larger remainder. */
  ghost predicate LargestRemainder(total: nat, counts: seq<nat>)
    requires |counts| == |FLOW_TYPES|
  {
    && (forall i :: 0 <= i < |FLOW_TYPES| ==>
          counts[i] == Whole(total, i) || (Remainder(total, i) > 0 && counts[i] == Whole(total, i) + 1))
    && (forall i, j | 0 <= i < |FLOW_TYPES| && 0 <= j < |FLOW_TYPES| ::
          counts[i] == Whole(total, i) + 1 && counts[j] == Whole(total, j) ==>
            Remainder(total, i) >= Remainder(total, j))
  }

  /** The counts of a batch of `total` events. */
  function Counts(total: nat): (counts: seq<nat>)
    ensures |counts| == |FLOW_TYPES| && forall i :: 0 <= i < |counts| ==> counts[i] == CountOf(total, i)
  {
    seq(|FLOW_TYPES|, i requires 0 <= i < |FLOW_TYPES| => CountOf(total, i))
  }

  // ---------- in terms of the errors ----------

  /** Sixty times how far each flow is from its exact share. */
  function Errors(total: nat, counts: seq<nat>): (es: seq<int>)
    requires |counts| == |FLOW_TYPES|
    ensures |es| == |FLOW_TYPES| && forall i :: 0 <= i < |es| ==> es[i] == Error(total, FLOW_TYPES[i], counts[i])
  {
    seq(|FLOW_TYPES|, i requires 0 <= i < |FLOW_TYPES| => Error(total, FLOW_TYPES[i], counts[i]))
  }

  /** No flow is off by a whole event, and no two are off by more than one from
      each other. */
  ghost predicate Balanced(es: seq<int>) {
    forall x, y | x in es && y in es :: -60 < x < 60 && x - y <= 60
  }

  lemma ErrorForm(total: nat, counts: seq<nat>, i: nat)
    requires i < |counts| == |FLOW_TYPES|
    ensures var e, w, r := Errors(total, counts)[i], Whole(total, i), Remainder(total, i);
            e == 60 * (counts[i] - w) - r && 0 <= r < 60 && e in Errors(total, counts)
  {
    hide CanonicalCount;
    var x := total * CanonicalCount(FLOW_TYPES[i]);
    assert x == 60 * (x / 60) + x % 60;
  }

  lemma LargestRemainderIsBalance(total: nat, counts: seq<nat>)
    requires |counts| == |FLOW_TYPES|
    ensures LargestRemainder(total, counts) <==> Balanced(Errors(total, counts))
  {
    hide Whole, Remainder, Error;
    var es := Errors(total, counts);
    forall i | 0 <= i < |FLOW_TYPES| { ErrorForm(total, counts, i); }
    if LargestRemainder(total, counts) {
      forall x, y | x in es && y in es ensures -60 < x < 60 && x - y <= 60 {
        var i :| 0 <= i < |es| && es[i] == x;
        var j :| 0 <= j < |es| && es[j] == y;
        assert counts[i] == Whole(total, i) || counts[i] == Whole(total, i) + 1;
        assert counts[j] == Whole(total, j) || counts[j] == Whole(total, j) + 1;
      }
    }
    if Balanced(es) {
      forall i, j | 0 <= i < |FLOW_TYPES| && 0 <= j < |FLOW_TYPES|
        ensures counts[i] == Whole(total, i) || (Remainder(total, i) > 0 && counts[i] == Whole(total, i) + 1)
        ensures counts[i] == Whole(total, i) + 1 && counts[j] == Whole(total, j) ==>
                  Remainder(total, i) >= Remainder(total, j)
      {
        assert es[i] - es[j] <= 60;
      }
    }
  }

  // ---------- the code's counts ----------

  /** The error of rounding the share of a flow with canonical count `w`. */
  function RoundingAt(total: nat, w: nat): int { 60 * RoundedShare(total, w) - total * w }

  /** What the first six rounded shares leave, if none is clamped. */
  function Rest(total: nat): int {
    total - 2 * RoundedShare(total, 8) - 2 * RoundedShare(total, 10) - RoundedShare(total, 12) - RoundedShare(total, 6)
  }

  /** The count of a flow whose rounded share is `share` when `remaining` is left. */
  function Clamped(remaining: nat, share: nat): nat { if share > remaining then remaining else share }

  lemma WeightsAre()
    ensures CanonicalCount(FLOW_TYPES[0]) == CanonicalCount(FLOW_TYPES[4]) == 8
    ensures CanonicalCount(FLOW_TYPES[1]) == CanonicalCount(FLOW_TYPES[3]) == 10
    ensures CanonicalCount(FLOW_TYPES[2]) == 12 && CanonicalCount(FLOW_TYPES[5]) == CanonicalCount(FLOW_TYPES[6]) == 6
  {
  }

  lemma CountUnfolds(total: nat, i: nat)
    requires i < |FLOW_TYPES|
    ensures var left := RemainingAt(total, i);
            && CountOf(total, i) ==
               (if i == 6 then left else Clamped(left, RoundedShare(total, CanonicalCount(FLOW_TYPES[i]))))
            && RemainingAt(total, i + 1) == left - CountOf(total, i)
    ensures RemainingAt(total, 0) == total
  {
    hide CanonicalCount, RoundedShare;
  }

  lemma CountsUnfold(total: nat)
    ensures var r8, r10, r12, r6 :=
              RoundedShare(total, 8), RoundedShare(total, 10), RoundedShare(total, 12), RoundedShare(total, 6);
            var c0 := Clamped(total, r8);
            var c1 := Clamped(total - c0, r10);
            var c2 := Clamped(total - c0 - c1, r12);
            var c3 := Clamped(total - c0 - c1 - c2, r10);
            var c4 := Clamped(total - c0 - c1 - c2 - c3, r8);
            var c5 := Clamped(total - c0 - c1 - c2 - c3 - c4, r6);
            Counts(total) == [c0, c1, c2, c3, c4, c5, total - c0 - c1 - c2 - c3 - c4 - c5]
  {
    hide RoundedShare, CountOf, CanonicalCount, RemainingAt, Clamped;
    WeightsAre();
    CountUnfolds(total, 0);
    CountUnfolds(total, 1);
    CountUnfolds(total, 2);
    CountUnfolds(total, 3);
    CountUnfolds(total, 4);
    CountUnfolds(total, 5);
    CountUnfolds(total, 6);
  }

  lemma UnclampedCounts(total: nat)
    requires Rest(total) >= 0
    ensures var r8, r10, r12, r6 :=
              RoundedShare(total, 8), RoundedShare(total, 10), RoundedShare(total, 12), RoundedShare(total, 6);
            Counts(total) == [r8, r10, r12, r10, r8, r6, Rest(total)]
  {
    hide RoundedShare, Counts;
    CountsUnfold(total);
  }

  /** The errors of rounding the shares of the four canonical counts fit together: so
      does the last flow, which takes over what the first six leave. */
  predicate Fits(e8: int, e10: int, e12: int, e6: int) {
    var e := -2 * e8 - 2 * e10 - e12 - e6;
    && -60 < e < 60 && -60 <= e8 - e <= 60 && -60 <= e10 - e <= 60 && -60 <= e12 - e <= 60 && -60 <= e6 - e <= 60
  }

  predicate LastFits(total: nat) {
    Fits(RoundingAt(total, 8), RoundingAt(total, 10), RoundingAt(total, 12), RoundingAt(total, 6))
  }

  lemma ErrorsAre(total: nat, counts: seq<nat>)
    requires |counts| == |FLOW_TYPES|
    ensures Errors(total, counts) ==
            [60 * counts[0] - 8 * total, 60 * counts[1] - 10 * total, 60 * counts[2] - 12 * total,
             60 * counts[3] - 10 * total, 60 * counts[4] - 8 * total, 60 * counts[5] - 6 * total,
             60 * counts[6] - 6 * total]
  {
  }

  lemma RoundingsAre(total: nat)
    ensures RoundingAt(total, 8) == 60 * RoundedShare(total, 8) - 8 * total
    ensures RoundingAt(total, 10) == 60 * RoundedShare(total, 10) - 10 * total
    ensures RoundingAt(total, 12) == 60 * RoundedShare(total, 12) - 12 * total
    ensures RoundingAt(total, 6) == 60 * RoundedShare(total, 6) - 6 * total
  {
    hide RoundedShare;
  }

  lemma RoundingsAreSmall(total: nat, w: nat)
    ensures -30 <= RoundingAt(total, w) <= 30
  {
    RoundingError(total, w);
    hide RoundedShare;
  }

  lemma UnclampedErrors(total: nat)
    requires Rest(total) >= 0
    ensures var e8, e10, e12, e6 :=
              RoundingAt(total, 8), RoundingAt(total, 10), RoundingAt(total, 12), RoundingAt(total, 6);
            Errors(total, Counts(total)) == [e8, e10, e12, e10, e8, e6, -2 * e8 - 2 * e10 - e12 - e6]
  {
    hide Errors, Counts, RoundedShare, RoundingAt;
    UnclampedCounts(total);
    ErrorsAre(total, Counts(total));
    RoundingsAre(total);
  }

  lemma BalanceIsLastFits(total: nat)
    requires Rest(total) >= 0
    ensures Balanced(Errors(total, Counts(total))) <==> LastFits(total)
  {
    hide Balanced, Errors, Counts, RoundingAt, Rest;
    UnclampedErrors(total);
    RoundingsAreSmall(total, 8);
    RoundingsAreSmall(total, 10);
    RoundingsAreSmall(total, 12);
    RoundingsAreSmall(total, 6);
    var e8, e10, e12, e6 := RoundingAt(total, 8), RoundingAt(total, 10), RoundingAt(total, 12), RoundingAt(total, 6);
    EndFits(e8, e10, e12, e6, -2 * e8 - 2 * e10 - e12 - e6);
  }

  lemma EndFits(a: int, b: int, c: int, d: int, e: int)
    requires -30 <= a <= 30 && -30 <= b <= 30 && -30 <= c <= 30 && -30 <= d <= 30
    ensures Balanced([a, b, c, b, a, d, e]) <==>
              -60 < e < 60 && -60 <= a - e <= 60 && -60 <= b - e <= 60 && -60 <= c - e <= 60 && -60 <= d - e <= 60
  {
    var es := [a, b, c, b, a, d, e];
    assert a in es && b in es && c in es && d in es && e in es;
    assert forall x :: x in es ==> x == a || x == b || x == c || x == d || x == e;
  }

  // ---------- exactly when ----------

  /** The residues whose rounding errors the last flow can take over. */
  predicate FairResidue(r: nat) {
    r in {0, 3, 6, 7, 8, 10, 12, 13, 14, 16, 17, 18, 20, 22, 23, 24, 25}
  }

  /** At 4 and 5 a clamped share saves the apportionment. */
  predicate FairTotal(total: nat) {
    total in {4, 5} || FairResidue(total % 30)
  }

  /** `s` is `r * w / 60`, rounded half up. */
  predicate RoundsTo(r: nat, w: nat, s: int) { 120 * s <= 2 * r * w + 60 < 120 * s + 120 }

  lemma ShareRounds(r: nat, w: nat)
    ensures RoundsTo(r, w, RoundedShare(r, w))
  {
  }

  lemma ResiduesBelow5(r: nat, s8: int, s10: int, s12: int, s6: int)
    requires r < 5 && RoundsTo(r, 8, s8) && RoundsTo(r, 10, s10) && RoundsTo(r, 12, s12) && RoundsTo(r, 6, s6)
    ensures Fits(60 * s8 - 8 * r, 60 * s10 - 10 * r, 60 * s12 - 12 * r, 60 * s6 - 6 * r) <==> FairResidue(r)
  {
    assert s8 == if r < 4 then 0 else 1;
    assert s10 == if r < 3 then 0 else 1;
    assert s12 == if r < 3 then 0 else 1;
    assert s6 == 0;
  }

  lemma ResiduesBelow10(r: nat, s8: int, s10: int, s12: int, s6: int)
    requires 5 <= r < 10 && RoundsTo(r, 8, s8) && RoundsTo(r, 10, s10) && RoundsTo(r, 12, s12) && RoundsTo(r, 6, s6)
    ensures Fits(60 * s8 - 8 * r, 60 * s10 - 10 * r, 60 * s12 - 12 * r, 60 * s6 - 6 * r) <==> FairResidue(r)
  {
    assert s8 == 1;
    assert s10 == if r < 9 then 1 else 2;
    assert s12 == if r < 8 then 1 else 2;
    assert s6 == 1;
  }

  lemma ResiduesBelow15(r: nat, s8: int, s10: int, s12: int, s6: int)
    requires 10 <= r < 15 && RoundsTo(r, 8, s8) && RoundsTo(r, 10, s10) && RoundsTo(r, 12, s12) && RoundsTo(r, 6, s6)
    ensures Fits(60 * s8 - 8 * r, 60 * s10 - 10 * r, 60 * s12 - 12 * r, 60 * s6 - 6 * r) <==> FairResidue(r)
  {
    assert s8 == if r < 12 then 1 else 2;
    assert s10 == 2;
    assert s12 == if r < 13 then 2 else 3;
    assert s6 == 1;
  }

  lemma ResiduesBelow20(r: nat, s8: int, s10: int, s12: int, s6: int)
    requires 15 <= r < 20 && RoundsTo(r, 8, s8) && RoundsTo(r, 10, s10) && RoundsTo(r, 12, s12) && RoundsTo(r, 6, s6)
    ensures Fits(60 * s8 - 8 * r, 60 * s10 - 10 * r, 60 * s12 - 12 * r, 60 * s6 - 6 * r) <==> FairResidue(r)
  {
    assert s8 == if r < 19 then 2 else 3;
    assert s10 == 3;
    assert s12 == if r < 18 then 3 else 4;
    assert s6 == 2;
  }

  lemma ResiduesBelow25(r: nat, s8: int, s10: int, s12: int, s6: int)
    requires 20 <= r < 25 && RoundsTo(r, 8, s8) && RoundsTo(r, 10, s10) && RoundsTo(r, 12, s12) && RoundsTo(r, 6, s6)
    ensures Fits(60 * s8 - 8 * r, 60 * s10 - 10 * r, 60 * s12 - 12 * r, 60 * s6 - 6 * r) <==> FairResidue(r)
  {
    assert s8 == 3;
    assert s10 == if r < 21 then 3 else 4;
    assert s12 == if r < 23 then 4 else 5;
    assert s6 == 2;
  }

  lemma ResiduesBelow30(r: nat, s8: int, s10: int, s12: int, s6: int)
    requires 25 <= r < 30 && RoundsTo(r, 8, s8) && RoundsTo(r, 10, s10) && RoundsTo(r, 12, s12) && RoundsTo(r, 6, s6)
    ensures Fits(60 * s8 - 8 * r, 60 * s10 - 10 * r, 60 * s12 - 12 * r, 60 * s6 - 6 * r) <==> FairResidue(r)
  {
    assert s8 == if r < 27 then 3 else 4;
    assert s10 == if r < 27 then 4 else 5;
    assert s12 == if r < 28 then 5 else 6;
    assert s6 == 3;
  }

  lemma ResidueFits(r: nat)
    requires r < 30
    ensures LastFits(r) <==> FairResidue(r)
  {
    hide RoundedShare, RoundingAt, Fits, FairResidue, RoundsTo;
    ShareRounds(r, 8);
    ShareRounds(r, 10);
    ShareRounds(r, 12);
    ShareRounds(r, 6);
    RoundingsAre(r);
    var s8, s10, s12, s6 := RoundedShare(r, 8), RoundedShare(r, 10), RoundedShare(r, 12), RoundedShare(r, 6);
    if r < 5 {
      ResiduesBelow5(r, s8, s10, s12, s6);
    } else if r < 10 {
      ResiduesBelow10(r, s8, s10, s12, s6);
    } else if r < 15 {
      ResiduesBelow15(r, s8, s10, s12, s6);
    } else if r < 20 {
      ResiduesBelow20(r, s8, s10, s12, s6);
    } else if r < 25 {
      ResiduesBelow25(r, s8, s10, s12, s6);
    } else {
      ResiduesBelow30(r, s8, s10, s12, s6);
    }
  }

  lemma SmallRests(r: nat)
    requires r < 30
    ensures Rest(r) < 0 <==> r in {4, 5}
  {
  }

  lemma LargeRests(total: nat)
    requires total >= 30
    ensures Rest(total) >= 0
  {
  }

  lemma ShiftQuotient(k: nat, a: nat)
    ensures (120 * k + a) / 120 == k + a / 120
  {
  }

  /** Rounding errors repeat every 30 events: every canonical count is even. */
  lemma RoundingRepeats(q: nat, r: nat, v: nat)
    ensures RoundingAt(30 * q + r, 2 * v) == RoundingAt(r, 2 * v)
  {
    assert 2 * (30 * q + r) * (2 * v) + 60 == 120 * (q * v) + (2 * r * (2 * v) + 60);
    ShiftQuotient(q * v, 2 * r * (2 * v) + 60);
    assert (30 * q + r) * (2 * v) == 60 * (q * v) + r * (2 * v);
  }

  lemma FitsRepeat(q: nat, r: nat)
    ensures LastFits(30 * q + r) <==> LastFits(r)
  {
    hide RoundingAt, Fits;
    RoundingRepeats(q, r, 3);
    RoundingRepeats(q, r, 4);
    RoundingRepeats(q, r, 5);
    RoundingRepeats(q, r, 6);
  }

  lemma FewShares()
    ensures RoundedShare(2, 8) == RoundedShare(2, 10) == RoundedShare(2, 12) == RoundedShare(2, 6) == 0
    ensures RoundedShare(4, 8) == RoundedShare(4, 10) == RoundedShare(4, 12) == 1 && RoundedShare(4, 6) == 0
    ensures RoundedShare(5, 8) == RoundedShare(5, 10) == RoundedShare(5, 12) == RoundedShare(5, 6) == 1
  {
  }

  lemma FewCounts()
    ensures Counts(2) == [0, 0, 0, 0, 0, 0, 2]
    ensures Counts(4) == [1, 1, 1, 1, 0, 0, 0] && Counts(5) == [1, 1, 1, 1, 1, 0, 0]
  {
    hide RoundedShare, Counts;
    FewShares();
    CountsUnfold(2);
    CountsUnfold(4);
    CountsUnfold(5);
  }

  predicate Close(e: int) { -32 <= e <= 28 }

  lemma CloseIsBalanced(total: nat, c: seq<nat>)
    requires |c| == |FLOW_TYPES|
    requires Close(60 * c[0] - 8 * total) && Close(60 * c[1] - 10 * total) && Close(60 * c[2] - 12 * total)
    requires Close(60 * c[3] - 10 * total) && Close(60 * c[4] - 8 * total)
    requires Close(60 * c[5] - 6 * total) && Close(60 * c[6] - 6 * total)
    ensures Balanced(Errors(total, c))
  {
    hide Errors;
    ErrorsAre(total, c);
    assert forall x :: x in Errors(total, c) ==> Close(x);
  }

  lemma ClampedTotals(total: nat)
    requires total == 4 || total == 5
    ensures Balanced(Errors(total, Counts(total)))
  {
    hide Errors, Balanced;
    FewCounts();
    var c := Counts(total);
    assert c[0] == 1 && c[1] == 1 && c[2] == 1 && c[3] == 1 && c[4] == total - 4 && c[5] == 0 && c[6] == 0;
    hide Counts, CountOf;
    CloseIsBalanced(total, c);
  }

  /** The scaled counts are a largest-remainder apportionment exactly for these
      totals: 4, 5, and seventeen of every thirty. */
  lemma LargestRemainderExactlyWhen(total: nat)
    ensures LargestRemainder(total, Counts(total)) <==> FairTotal(total)
  {
    hide Balanced, LargestRemainder, LastFits, Rest, Counts, RoundingAt, Errors, FairResidue;
    LargestRemainderIsBalance(total, Counts(total));
    var q, r := total / 30, total % 30;
    assert total == 30 * q + r;
    ResidueFits(r);
    SmallRests(r);
    if total == 4 || total == 5 {
      ClampedTotals(total);
    } else {
      if total >= 30 {
        LargeRests(total);
      }
      BalanceIsLastFits(total);
      FitsRepeat(q, r);
    }
  }

  /** A batch of two events: both go to the last flow, whose exact share is a fifth
      of an event. */
  lemma TwoEventsAreNotApportioned()
    ensures Counts(2) == [0, 0, 0, 0, 0, 0, 2]
    ensures Whole(2, 6) == 0 && Remainder(2, 6) == 12
    ensures !LargestRemainder(2, Counts(2))
  {
    hide Counts, LargestRemainder;
    FewCounts();
    LargestRemainderExactlyWhen(2);
  }
}
