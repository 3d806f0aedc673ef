/** The blocked-versus-eligible segmentation (go/rz/adapter.go:84-128) and the
    conservation laws of both log consumers. */
module Eligibility {
  import opened Types
  import opened Metrics

  datatype Eligibility = Eligibility(
    blocked: int, eligible: int, recovered: int, eligibleRate: real, blendedRate: real)

  function Blocked(r: Row): int {
    if r.state in {Escalated, Abandoned, Suppressed, WaitingOnPtp} then 1 else 0
  }

  ghost function EligibilityOf(rows: seq<Row>): Eligibility {
    var seen, t := |FirstRows(rows)|, TerminalOf(rows);
    var recovered, blocked := Total(t, InState(Recovered)), Total(t, Blocked);
    var eligible := recovered + (seen - (recovered + blocked));
    Eligibility(blocked, eligible, recovered, Ratio(recovered, eligible), Ratio(recovered, seen))
  }

  method ScanEvents(log: seq<Entry>) returns (terminal: map<string, Row>, seen: set<string>)
    ensures terminal == TerminalOf(RowsOf(log))
    ensures seen == FirstRows(RowsOf(log)).Keys
  {
    hide TerminalOf, FirstRows, NoteFirst, FlowKeys;
    ghost var rows := RowsOf(log);
    terminal, seen := map[], {};
    NothingScanned();
    for i := 0 to |log|
      invariant terminal == TerminalOf(rows[..i])
      invariant seen == FirstRows(rows[..i]).Keys
    {
      var e := log[i].row;
      PrefixNext(rows, i);
      FirstKeysNext(FirstRows(rows[..i]), e);
      if !IsDuplicate(e) {
        seen := seen + {e.eventId};
        if IsTerminalState(e.state) {
          terminal := terminal[e.eventId := e];
        }
      }
    }
    assert rows[..|log|] == rows;
  }

  lemma NothingScanned()
    ensures TerminalOf([]) == map[] && FirstRows([]) == map[]
  {
  }

  method ComputeEligibility(log: seq<Entry>) returns (e: Eligibility)
    ensures e == EligibilityOf(RowsOf(log))
  {
    hide TerminalOf, FirstRows, Total, SegmentedTo, EligibilityOf, Ratio;
    var terminal, seen := ScanEvents(log);
    var total := |seen|;
    var recovered, blocked := 0, 0;
    var rest := terminal;
    SegmentedNone(terminal);
    while rest != map[]
      invariant SegmentedTo(terminal, rest, recovered, blocked)
      decreases |rest|
    {
      var id :| id in rest;
      SegmentedNext(terminal, rest, id, recovered, blocked);
      match rest[id].state {
        case Recovered => recovered := recovered + 1;
        case Escalated => blocked := blocked + 1;
        case Abandoned => blocked := blocked + 1;
        case Suppressed => blocked := blocked + 1;
        case WaitingOnPtp => blocked := blocked + 1;
        case _ =>
      }
      rest := rest - {id};
    }
    var eligible := recovered + (total - (recovered + blocked));
    e := Eligibility(blocked, eligible, recovered, Ratio(recovered, eligible), Ratio(recovered, total));
    SegmentedAll(RowsOf(log), recovered, blocked);
  }

  /** The two counters once only `rest` of the terminal rows is left to look at. */
  ghost predicate SegmentedTo(terminal: map<string, Row>, rest: map<string, Row>, recovered: int, blocked: int) {
    && recovered + Total(rest, InState(Recovered)) == Total(terminal, InState(Recovered))
    && blocked + Total(rest, Blocked) == Total(terminal, Blocked)
  }

  lemma SegmentedNone(terminal: map<string, Row>)
    ensures SegmentedTo(terminal, terminal, 0, 0)
  {
  }

  lemma SegmentedNext(terminal: map<string, Row>, rest: map<string, Row>, id: string, recovered: int, blocked: int)
    requires id in rest && SegmentedTo(terminal, rest, recovered, blocked)
    ensures SegmentedTo(terminal, rest - {id}, recovered + InState(Recovered)(rest[id]), blocked + Blocked(rest[id]))
  {
    hide Total;
    TotalPick(rest, id, InState(Recovered));
    TotalPick(rest, id, Blocked);
  }

  lemma SegmentedAll(rows: seq<Row>, recovered: int, blocked: int)
    requires SegmentedTo(TerminalOf(rows), map[], recovered, blocked)
    ensures var total := |FirstRows(rows).Keys|;
            var eligible := recovered + (total - (recovered + blocked));
            Eligibility(blocked, eligible, recovered, Ratio(recovered, eligible), Ratio(recovered, total))
            == EligibilityOf(rows)
  {
    hide TerminalOf, FirstRows, Ratio;
    SeenIsFirstRows(rows);
  }

  lemma SeenIsFirstRows(rows: seq<Row>)
    ensures |FirstRows(rows).Keys| == |FirstRows(rows)|
  {
  }

  // ---------- conservation ----------

  lemma BlockedSum(t: map<string, Row>)
    requires forall id :: id in t ==> IsTerminalState(t[id].state)
    ensures Total(t, InState(Escalated)) + Total(t, InState(Abandoned)) + Total(t, InState(Suppressed))
            == Total(t, Blocked)
  {
    hide Total;
    var a := (r: Row) => InState(Escalated)(r) + InState(Abandoned)(r);
    TotalSum(t, InState(Escalated), InState(Abandoned), a);
    TotalSum(t, a, InState(Suppressed), Blocked);
  }

  lemma OutcomesSum(t: map<string, Row>)
    requires forall id :: id in t ==> IsTerminalState(t[id].state)
    ensures Total(t, InState(Recovered)) + Total(t, Blocked) == |t|
  {
    hide Total;
    TotalOnes(t, One);
    TotalSum(t, InState(Recovered), Blocked, One);
  }

  lemma {:induction false} OutcomesOfLog(rows: seq<Row>)
    ensures var t := TerminalOf(rows);
            && Total(t, InState(Recovered)) + Total(t, Blocked) == |t|
            && Total(t, InState(Escalated)) + Total(t, InState(Abandoned)) + Total(t, InState(Suppressed))
              == Total(t, Blocked)
  {
    hide Total, TerminalOf, FirstRows;
    TerminalIsKeyed(rows);
    BlockedSum(TerminalOf(rows));
    OutcomesSum(TerminalOf(rows));
  }

  /** Every event with a terminal row is counted in exactly one of the four
      outcomes, and no more events are counted than were seen. */
  lemma OutcomesPartitionEvents(rows: seq<Row>)
    ensures var m := MetricsOf(rows);
            && m.recoveredCount + m.escalatedCount + m.abandonedCount + m.suppressedCount == m.totalEvents
            && m.totalEvents <= |FirstRows(rows)|
            && m.recoveredCount >= 0 && m.escalatedCount >= 0 && m.abandonedCount >= 0 && m.suppressedCount >= 0
  {
    hide Total, TerminalOf, FirstRows, FlowKeys, Scanned, Tallied, TouchesOfFlows;
    TerminalIsKeyed(rows);
    OutcomesOfLog(rows);
    CountsAreNatural(TerminalOf(rows));
    FewerKeys(TerminalOf(rows), FirstRows(rows));
    hide Decides, InState;
  }

  lemma CountsAreNatural(t: map<string, Row>)
    ensures Total(t, InState(Recovered)) >= 0 && Total(t, InState(Escalated)) >= 0
    ensures Total(t, InState(Abandoned)) >= 0 && Total(t, InState(Suppressed)) >= 0
  {
    NonNegative(t, InState(Recovered));
    NonNegative(t, InState(Escalated));
    NonNegative(t, InState(Abandoned));
    NonNegative(t, InState(Suppressed));
  }

  lemma FewerKeys(t: map<string, Row>, s: map<string, Row>)
    requires t.Keys <= s.Keys
    ensures |t| <= |s|
  {
    SubsetIsSmaller(t.Keys, s.Keys);
    assert |t.Keys| == |t| && |s.Keys| == |s|;
  }

  lemma {:induction false} NonNegative(t: map<string, Row>, w: Row -> int)
    requires forall id :: id in t ==> w(t[id]) >= 0
    ensures Total(t, w) >= 0
    decreases |t|
  {
    if t != map[] {
      var id :| id in t;
      TotalPick(t, id, w);
      NonNegative(t - {id}, w);
    }
  }

  lemma {:induction false} SubsetIsSmaller<T>(a: set<T>, b: set<T>)
    requires a <= b
    ensures |a| <= |b|
  {
    if a != {} {
      var x :| x in a;
      SubsetIsSmaller(a - {x}, b - {x});
    }
  }

  /** With non-negative amounts, what is recovered never exceeds what is at risk. */
  lemma RecoveredIsAtRisk(rows: seq<Row>)
    requires forall r :: r in rows ==> AmountOf(r) >= 0
    ensures var m := MetricsOf(rows);
            0 <= m.recoveredAmount <= m.totalAtRisk && 0.0 <= m.recoveryRate <= 1.0
  {
    var t := TerminalOf(rows);
    TerminalIsKeyed(rows);
    assert forall id :: id in t ==> AmountOf(t[id]) >= 0;
    NonNegative(t, RecoveredAmountOf);
    TotalCompare(t, RecoveredAmountOf, AmountOf);
    RatioIsARate(Total(t, RecoveredAmountOf), Total(t, AmountOf));
  }

  lemma RatioIsARate(a: int, b: int)
    requires 0 <= a <= b
    ensures 0.0 <= Ratio(a, b) <= 1.0
  {
    if b > 0 {
      assert a as real <= b as real;
      assert a as real / b as real <= b as real / b as real;
    }
  }

  /** A smaller population has the higher rate. */
  lemma RatioAntitone(a: int, b: int, c: int)
    requires 0 <= a <= b <= c && b > 0
    ensures Ratio(a, b) >= Ratio(a, c)
  {
    var x, y, z := a as real, b as real, c as real;
    assert x / y - x / z == x * (z - y) / (y * z);
    assert x * (z - y) >= 0.0 && y * z > 0.0;
  }

  // ---------- per-flow sums ----------

  function InFlows(keys: set<Flow>, w: Row -> int): Row -> int {
    (r: Row) => if r.flow in keys then w(r) else 0
  }

  function Value(x: int): int { x }

  ghost function PerFlow(t: map<string, Row>, keys: set<Flow>, w: Row -> int): map<Flow, int> {
    map f | f in keys :: Total(t, OnFlow(f, w))
  }

  lemma TotalOfNoFlows()
    ensures Total<Flow, int>(map[], Value) == 0
  {
  }

  lemma {:induction false} PerFlowSums(t: map<string, Row>, keys: set<Flow>, w: Row -> int)
    ensures Total(PerFlow(t, keys, w), Value) == Total(t, InFlows(keys, w))
    decreases |keys|
  {
    hide Total;
    if keys == {} {
      TotalZero(t, InFlows(keys, w));
      TotalOfNoFlows();
    } else {
      var f :| f in keys;
      PerFlowSums(t, keys - {f}, w);
      TotalPick(PerFlow(t, keys, w), f, Value);
      assert PerFlow(t, keys, w) - {f} == PerFlow(t, keys - {f}, w);
      TotalSum(t, OnFlow(f, w), InFlows(keys - {f}, w), InFlows(keys, w));
    }
  }

  lemma {:induction false} TotalZero(t: map<string, Row>, w: Row -> int)
    requires forall id :: id in t ==> w(t[id]) == 0
    ensures Total(t, w) == 0
    decreases |t|
  {
    if t != map[] {
      var id :| id in t;
      TotalPick(t, id, w);
      TotalZero(t - {id}, w);
    }
  }

  lemma {:induction false} SameTotals<V, W>(m: map<Flow, V>, w: V -> int, n: map<Flow, W>, u: W -> int)
    requires m.Keys == n.Keys && forall f :: f in m ==> w(m[f]) == u(n[f])
    ensures Total(m, w) == Total(n, u)
    decreases |m|
  {
    if m == map[] {
      assert n == map[];
    } else {
      var f :| f in m;
      TotalPick(m, f, w);
      TotalPick(n, f, u);
      SameTotals(m - {f}, w, n - {f}, u);
    }
  }

  /** A field that credits each flow with its own rows sums to the whole. */
  lemma FlowFieldSums(rows: seq<Row>, t: map<string, Row>, field: FlowMetrics -> int, w: Row -> int)
    requires forall id :: id in t ==> t[id].flow in FlowKeys(rows)
    requires forall f :: field(Tallied(Scanned(rows, f), TerminalOf(rows), f)) == Total(t, OnFlow(f, w))
    ensures Total(MetricsOf(rows).byFlow, field) == Total(t, w)
  {
    hide Scanned, Tallied, FlowKeys, Total;
    PerFlowSums(t, FlowKeys(rows), w);
    SameTotals(MetricsOf(rows).byFlow, field, PerFlow(t, FlowKeys(rows), w), Value);
    TotalCompare(t, InFlows(FlowKeys(rows), w), w);
  }

  /** The per-flow columns sum to the totals, whatever flows the log mentions. */
  lemma FlowsSumToTotals(rows: seq<Row>)
    ensures var m := MetricsOf(rows);
            && Total(m.byFlow, (fm: FlowMetrics) => fm.recoveredCount) == m.recoveredCount
            && Total(m.byFlow, (fm: FlowMetrics) => fm.recoveredAmount) == m.recoveredAmount
            && Total(m.byFlow, (fm: FlowMetrics) => fm.escalated) == m.escalatedCount
            && Total(m.byFlow, (fm: FlowMetrics) => fm.abandoned) == m.abandonedCount
            && Total(m.byFlow, (fm: FlowMetrics) => fm.suppressed) == m.suppressedCount
            && Total(m.byFlow, (fm: FlowMetrics) => fm.events) == |FirstRows(rows)|
  {
    hide Total, FlowKeys, TerminalOf, FirstRows;
    var t, s := TerminalOf(rows), FirstRows(rows);
    forall id | id in t { TerminalFlowsAreKeys(rows, id); }
    forall id | id in s { FirstFlowsAreKeys(rows, id); }
    FlowFieldSums(rows, t, (fm: FlowMetrics) => fm.recoveredCount, InState(Recovered));
    FlowFieldSums(rows, t, (fm: FlowMetrics) => fm.recoveredAmount, RecoveredAmountOf);
    FlowFieldSums(rows, t, (fm: FlowMetrics) => fm.escalated, InState(Escalated));
    FlowFieldSums(rows, t, (fm: FlowMetrics) => fm.abandoned, InState(Abandoned));
    FlowFieldSums(rows, t, (fm: FlowMetrics) => fm.suppressed, InState(Suppressed));
    FlowFieldSums(rows, s, (fm: FlowMetrics) => fm.events, One);
    TotalOnes(s, One);
  }

  /** Touches of any flow, and of the flows the engine knows. */
  function TouchRow(): Row -> bool { (r: Row) => IsTouch(r) }

  function KnownTouchRow(): Row -> bool { (r: Row) => IsTouch(r) && !r.flow.OtherFlow? }

  /** Counting touches flow by flow is counting those of the flows counted. */
  function TouchIn(keys: set<Flow>): Row -> bool { (r: Row) => IsTouch(r) && r.flow in keys }

  ghost function TouchesPerFlow(rows: seq<Row>, keys: set<Flow>): map<Flow, int> {
    map f | f in keys :: |Filter(rows, TouchOn(f))|
  }

  lemma {:induction false} FilterSplits(rows: seq<Row>, f: Flow, keys: set<Flow>)
    requires f in keys
    ensures |Filter(rows, TouchIn(keys))| == |Filter(rows, TouchOn(f))| + |Filter(rows, TouchIn(keys - {f}))|
  {
    hide IsTouch;
    if rows != [] {
      FilterSplits(rows[1..], f, keys);
      assert TouchIn(keys)(rows[0]) == (TouchOn(f)(rows[0]) || TouchIn(keys - {f})(rows[0]));
      assert !(TouchOn(f)(rows[0]) && TouchIn(keys - {f})(rows[0]));
    }
  }

  lemma {:induction false} PerFlowTouches(rows: seq<Row>, keys: set<Flow>)
    ensures Total(TouchesPerFlow(rows, keys), Value) == |Filter(rows, TouchIn(keys))|
    decreases |keys|
  {
    hide Filter;
    if keys == {} {
      FilterNone(rows, TouchIn(keys));
    } else {
      var f :| f in keys;
      PerFlowTouches(rows, keys - {f});
      TotalPick(TouchesPerFlow(rows, keys), f, Value);
      assert TouchesPerFlow(rows, keys) - {f} == TouchesPerFlow(rows, keys - {f});
      FilterSplits(rows, f, keys);
    }
  }

  lemma {:induction false} SameFilter(rows: seq<Row>, keep: Row -> bool, other: Row -> bool)
    requires forall r :: r in rows ==> keep(r) == other(r)
    ensures Filter(rows, keep) == Filter(rows, other)
  {
    if rows != [] {
      SameFilter(rows[1..], keep, other);
    }
  }

  /** The first `n` known flows. */
  function KnownFlows(n: nat): set<Flow>
    requires n <= |FLOW_TYPES|
  {
    if n == 0 then {} else KnownFlows(n - 1) + {FLOW_TYPES[n - 1]}
  }

  lemma {:induction false} KnownFlowsAre(n: nat)
    requires n <= |FLOW_TYPES|
    ensures forall f :: f in KnownFlows(n) <==> exists i :: 0 <= i < n && FLOW_TYPES[i] == f
  {
    if n > 0 {
      KnownFlowsAre(n - 1);
    }
  }

  lemma {:induction false} KnownFlowTouches(rows: seq<Row>, n: nat)
    requires n <= |FLOW_TYPES|
    ensures TouchesOfFlows(rows, n) == |Filter(rows, TouchIn(KnownFlows(n)))|
  {
    hide Filter;
    if n == 0 {
      FilterNone(rows, TouchIn(KnownFlows(n)));
    } else {
      var f := FLOW_TYPES[n - 1];
      KnownFlowTouches(rows, n - 1);
      KnownFlowsAre(n - 1);
      forall i | 0 <= i < n - 1 { FlowsDiffer(i, n - 1); }
      assert KnownFlows(n) - {f} == KnownFlows(n - 1);
      FilterSplits(rows, f, KnownFlows(n));
    }
  }

  lemma ColumnSumsToTouches(rows: seq<Row>)
    ensures Total(MetricsOf(rows).byFlow, (fm: FlowMetrics) => fm.touches) == |Filter(rows, TouchRow())|
  {
    hide Total, FlowKeys, TerminalOf, FirstRows, Filter, TouchesOfFlows, Scanned, Tallied, TouchOn, TouchIn, TouchRow;
    var keys := FlowKeys(rows);
    PerFlowTouches(rows, keys);
    forall f { TalliedTouches(rows, TerminalOf(rows), f); }
    SameTotals(MetricsOf(rows).byFlow, (fm: FlowMetrics) => fm.touches, TouchesPerFlow(rows, keys), Value);
    TouchFlowsAreKeys(rows);
    TouchesAreIn(rows, keys);
  }

  lemma TouchesAreIn(rows: seq<Row>, keys: set<Flow>)
    requires forall r :: r in rows && IsTouch(r) ==> r.flow in keys
    ensures Filter(rows, TouchIn(keys)) == Filter(rows, TouchRow())
  {
    SameFilter(rows, TouchIn(keys), TouchRow());
  }

  lemma KnownTouchesAreCounted(rows: seq<Row>)
    ensures TouchesOfFlows(rows, |FLOW_TYPES|) == |Filter(rows, KnownTouchRow())|
  {
    hide Filter, TouchesOfFlows, KnownFlows;
    KnownFlowTouches(rows, |FLOW_TYPES|);
    KnownFlowsAre(|FLOW_TYPES|);
    KnownFlowsAreListed();
    SameFilter(rows, TouchIn(KnownFlows(|FLOW_TYPES|)), KnownTouchRow());
  }

  /** The touches column sums to all touches in the log; the headline figure leaves
      out those of flows the engine does not know. */
  lemma TouchesSentCoversKnownFlows(rows: seq<Row>)
    ensures var m := MetricsOf(rows);
            && Total(m.byFlow, (fm: FlowMetrics) => fm.touches) == |Filter(rows, TouchRow())|
            && m.touchesSent == |Filter(rows, KnownTouchRow())|
  {
    hide Total, FlowKeys, TerminalOf, Filter, TouchesOfFlows, Scanned, Tallied, TouchRow, KnownTouchRow;
    ColumnSumsToTouches(rows);
    KnownTouchesAreCounted(rows);
  }

  lemma TouchFlowsAreKeys(rows: seq<Row>)
    ensures forall r :: r in rows && IsTouch(r) ==> r.flow in FlowKeys(rows)
  {
  }

  lemma {:induction false} FirstFlowsAreKeys(rows: seq<Row>, id: string)
    requires id in FirstRows(rows)
    ensures FirstRows(rows)[id].flow in FlowKeys(rows)
    decreases |rows|
  {
    var n := |rows| - 1;
    PrefixNext(rows, n);
    assert rows[..n + 1] == rows;
    hide FlowKeys, TerminalOf;
    if id in FirstRows(rows[..n]) {
      FirstFlowsAreKeys(rows[..n], id);
    }
  }

  // ---------- the two consumers agree ----------

  /** Eligibility and metrics describe the same log: blocked events are the
      escalated, abandoned and suppressed ones, blocked plus eligible are the
      events seen, and leaving the blocked out never lowers the rate. */
  lemma EligibilityAgreesWithMetrics(rows: seq<Row>)
    ensures var e, m := EligibilityOf(rows), MetricsOf(rows);
            && e.recovered == m.recoveredCount
            && e.blocked == m.escalatedCount + m.abandonedCount + m.suppressedCount
            && e.blocked + e.eligible == |FirstRows(rows)|
            && 0 <= e.recovered <= e.eligible
            && (e.eligible > 0 ==> e.eligibleRate >= e.blendedRate)
  {
    hide Total, TerminalOf, FirstRows, FlowKeys, Scanned, Tallied, TouchesOfFlows, Ratio;
    OutcomesOfLog(rows);
    OutcomesPartitionEvents(rows);
    var e, seen := EligibilityOf(rows), |FirstRows(rows)|;
    if e.eligible > 0 {
      RatioAntitone(e.recovered, e.eligible, seen);
    }
  }
}
