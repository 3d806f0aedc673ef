/** What the rates of the reports mean, on any log and on the log of a run
    (go/rz/metrics.go:131-138, go/rz/adapter.go:107-128). */
module Rates {
  import opened Types
  import opened Classify
  import opened Loop
  import opened Runner
  import opened Metrics
  import opened Eligibility
  import opened Settlement

  /** `rate` is the share that `part` is of `whole`; of nothing, it is 0. */
  predicate IsShare(rate: real, part: int, whole: int) {
    if whole > 0 then rate * whole as real == part as real else rate == 0.0
  }

  lemma RatioIsShare(part: int, whole: int)
    ensures IsShare(Ratio(part, whole), part, whole)
  {
    if whole > 0 {
      assert part as real / whole as real * whole as real == part as real;
    }
  }

  /** On any log: the recovery rate is the share of the money at risk that was
      recovered, and the cost the touches per recovery. */
  lemma MetricsRates(rows: seq<Row>)
    ensures var m := MetricsOf(rows);
            && IsShare(m.recoveryRate, m.recoveredAmount, m.totalAtRisk)
            && IsShare(m.costPerRecovery, m.touchesSent, m.recoveredCount)
  {
    hide Total, TerminalOf, FlowKeys, Scanned, Tallied, TouchesOfFlows, Ratio, IsShare;
    var m := MetricsOf(rows);
    RatioIsShare(m.recoveredAmount, m.totalAtRisk);
    RatioIsShare(m.touchesSent, m.recoveredCount);
  }

  /** A row without an amount adds nothing. */
  lemma {:induction false} UnsetAmountsAddNothing(rows: seq<Row>)
    requires forall r :: r in rows ==> r.amount.None?
    ensures MetricsOf(rows).totalAtRisk == 0 && MetricsOf(rows).recoveredAmount == 0
  {
    hide FlowKeys, Scanned, Tallied, TouchesOfFlows, TerminalOf, Total;
    TerminalIsKeyed(rows);
    TotalZero(TerminalOf(rows), AmountOf);
    TotalZero(TerminalOf(rows), RecoveredAmountOf);
  }

  /** The eligible rate is the share of the eligible events, the blended rate of all
      events seen, that recovered. */
  lemma EligibilityRates(rows: seq<Row>)
    ensures var e := EligibilityOf(rows);
            && IsShare(e.eligibleRate, e.recovered, e.eligible)
            && IsShare(e.blendedRate, e.recovered, |FirstRows(rows)|)
  {
    hide Total, TerminalOf, FirstRows, Ratio, IsShare;
    var e := EligibilityOf(rows);
    RatioIsShare(e.recovered, e.eligible);
    RatioIsShare(e.recovered, |FirstRows(rows)|);
  }

  /** On the log of a run: the money of the events that ended recovered, of the money
      of the events that ended at all - in money, whatever the number of events. */
  lemma RunRates(env: Env, tasks: seq<Task>, b: Book)
    ensures var ds, m := Process(MachineOf(env), tasks, b).deliveries, MetricsOf(RunRows(MachineOf(env), tasks, b));
            && IsShare(m.recoveryRate, Sum(ds, RecoveredOf()), Sum(ds, AtRiskOf()))
            && IsShare(m.costPerRecovery, 2 * Sum(ds, ExecutionsOf()) - Sum(ds, RecoveredByTouch()),
                       Sum(ds, SettledIn(Recovered)))
  {
    hide MetricsOf, RunRows, Process, MachineOf, Sum, IsShare;
    MetricsRates(RunRows(MachineOf(env), tasks, b));
    MetricsTellTheRun(env, tasks, b);
    TouchesSentCountsFailuresTwice(env, tasks, b);
  }

  // ---------- what one flow is credited with ----------

  /** The events whose last terminal row is on the flow and in the state. */
  ghost function EndedOn(rows: seq<Row>, f: Flow, s: AgentState): set<string> {
    set id | id in TerminalOf(rows) && TerminalOf(rows)[id].flow == f && TerminalOf(rows)[id].state == s
  }

  /** The events first seen on a flow. */
  ghost function SeenOn(first: map<string, Row>, f: Flow): set<string> {
    set id | id in first && first[id].flow == f
  }

  lemma {:induction false} TotalIsCardinality(t: map<string, Row>, w: Row -> int, ids: set<string>)
    requires forall id :: id in t ==> w(t[id]) == if id in ids then 1 else 0
    requires ids <= t.Keys
    ensures Total(t, w) == |ids|
    decreases |t|
  {
    if t == map[] {
      assert ids == {};
    } else {
      var id :| id in t;
      TotalPick(t, id, w);
      TotalIsCardinality(t - {id}, w, ids - {id});
    }
  }

  lemma EndedAreCounted(rows: seq<Row>, f: Flow, s: AgentState)
    ensures Total(TerminalOf(rows), OnFlow(f, InState(s))) == |EndedOn(rows, f, s)|
  {
    hide TerminalOf;
    TotalIsCardinality(TerminalOf(rows), OnFlow(f, InState(s)), EndedOn(rows, f, s));
  }

  lemma EntryIs(rows: seq<Row>, f: Flow)
    requires f in MetricsOf(rows).byFlow
    ensures MetricsOf(rows).byFlow[f] == Tallied(Scanned(rows, f), TerminalOf(rows), f)
  {
    hide TerminalOf, FirstRows, Total, FlowKeys, TouchesOfFlows, Ratio, Filter, Scanned, Tallied;
  }

  lemma EntryFields(rows: seq<Row>, f: Flow)
    ensures var fm, t := Tallied(Scanned(rows, f), TerminalOf(rows), f), TerminalOf(rows);
            && fm.recoveredCount == Total(t, OnFlow(f, InState(Recovered)))
            && fm.recoveredAmount == Total(t, OnFlow(f, RecoveredAmountOf))
            && fm.escalated == Total(t, OnFlow(f, InState(Escalated)))
            && fm.suppressed == Total(t, OnFlow(f, InState(Suppressed)))
            && fm.abandoned == Total(t, OnFlow(f, InState(Abandoned)))
            && fm.events == Total(FirstRows(rows), OnFlow(f, One)) && fm.touches == |Filter(rows, TouchOn(f))|
  {
    hide TerminalOf, FirstRows, Total, OnFlow, Filter;
  }

  /** Every flow's entry counts the events that ended on it, the events first seen on
      it, and its touch rows. */
  lemma FlowEntryCounts(rows: seq<Row>, f: Flow)
    requires f in MetricsOf(rows).byFlow
    ensures var fm, first := MetricsOf(rows).byFlow[f], FirstRows(rows);
            && fm.recoveredCount == |EndedOn(rows, f, Recovered)| && fm.escalated == |EndedOn(rows, f, Escalated)|
            && fm.suppressed == |EndedOn(rows, f, Suppressed)| && fm.abandoned == |EndedOn(rows, f, Abandoned)|
            && fm.events == |SeenOn(first, f)|
            && fm.touches == |Filter(rows, TouchOn(f))|
  {
    hide TerminalOf, FirstRows, Total, MetricsOf, Filter, Tallied, Scanned, EndedOn, TouchOn;
    EntryIs(rows, f);
    EntryFields(rows, f);
    EndedAreCounted(rows, f, Recovered);
    EndedAreCounted(rows, f, Escalated);
    EndedAreCounted(rows, f, Suppressed);
    EndedAreCounted(rows, f, Abandoned);
    SeenAreCounted(FirstRows(rows), f);
  }

  lemma SeenAreCounted(first: map<string, Row>, f: Flow)
    ensures Total(first, OnFlow(f, One)) == |SeenOn(first, f)|
  {
    TotalIsCardinality(first, OnFlow(f, One), SeenOn(first, f));
  }

  // ---------- what one flow's events brought in ----------

  function RecoveredOn(f: Flow): Delivery -> int {
    (d: Delivery) => if IsSettled(d, Recovered) && d.task.flow == f then d.task.amount else 0
  }

  lemma DeliveryBrings(env: Env, d: Delivery, f: Flow)
    requires IsDelivery(MachineOf(env), d.task, d)
    ensures Total(TerminalOf(DeliveryRows(d)), OnFlow(f, RecoveredAmountOf)) == RecoveredOn(f)(d)
  {
    hide RunFrom, MachineOf, TerminalOf, RowsOfSteps, Total;
    var rows := DeliveryRows(d);
    if d.Duplicate? {
      MarkerSettlesNothing(MachineOf(env), d.task, []);
    } else {
      TraceSettles(env, d.task, d.base, d.left);
      MachineIsWellFormed(env);
      TraceRows(MachineOf(env), d.task, d.base, 0, d.left);
      if rows != [] {
        assert rows[|rows| - 1] in rows && RowOf(MachineOf(env).now, d.task, rows[|rows| - 1]);
      }
    }
    var r := if rows == [] then DuplicateRow(0, d.task) else rows[|rows| - 1];
    TotalOfOne(d.task.eventId, r, OnFlow(f, RecoveredAmountOf));
    if IsSettled(d, Recovered) {
      assert TerminalOf(rows) == map[d.task.eventId := r];
      assert r.state == Recovered && r.flow == d.task.flow && r.amount == Some(d.task.amount);
      assert RecoveredAmountOf(r) == d.task.amount;
    } else {
      assert TerminalOf(rows) == map[] || (TerminalOf(rows) == map[d.task.eventId := r] && r.state != Recovered);
      assert RecoveredAmountOf(r) == 0 || TerminalOf(rows) == map[];
    }
  }

  /** On a run's log a flow's recovered amount is the money of its own recovered events. */
  lemma FlowMoney(env: Env, tasks: seq<Task>, b: Book, f: Flow)
    requires f in MetricsOf(RunRows(MachineOf(env), tasks, b)).byFlow
    ensures MetricsOf(RunRows(MachineOf(env), tasks, b)).byFlow[f].recoveredAmount
            == Sum(Process(MachineOf(env), tasks, b).deliveries, RecoveredOn(f))
  {
    hide MetricsOf, RunRows, Process, MachineOf, Sum, TerminalOf, Total, Tallied, Scanned, RecoveredOn, IsDelivery,
         DeliveryRows;
    EntryIs(RunRows(MachineOf(env), tasks, b), f);
    EntryFields(RunRows(MachineOf(env), tasks, b), f);
    forall d: Delivery | IsDelivery(MachineOf(env), d.task, d)
      ensures Total(TerminalOf(DeliveryRows(d)), OnFlow(f, RecoveredAmountOf)) == RecoveredOn(f)(d)
    {
      DeliveryBrings(env, d, f);
    }
    RunTotals(env, tasks, b, OnFlow(f, RecoveredAmountOf), RecoveredOn(f));
  }
}
