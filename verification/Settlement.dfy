/** "Metrics are computed from the log, never asserted" (go/rz/metrics.go:5): what
    the log consumers read off a run's rows is what the run really did. */
module Settlement {
  import opened Types
  import opened Classify
  import opened Loop
  import opened Runner
  import opened Grammar
  import opened Metrics
  import opened Replay
  import Engines
  import Execution

  // ---------- terminal rows of a log in two parts ----------

  lemma {:induction false} TerminalConcat(a: seq<Row>, b: seq<Row>)
    ensures TerminalOf(a + b) == TerminalOf(a) + TerminalOf(b)
    decreases |b|
  {
    hide TerminalOf;
    if b == [] {
      assert a + b == a;
      NoTerminals(b);
    } else {
      var n := |b| - 1;
      TerminalConcat(a, b[..n]);
      assert a + b == (a + b[..n]) + [b[n]] && b == b[..n] + [b[n]];
      SnocFolds(a + b[..n], b[n]);
      SnocFolds(b[..n], b[n]);
      NoteMerges(TerminalOf(a), TerminalOf(b[..n]), b[n]);
    }
  }

  lemma NoteMerges(a: map<string, Row>, b: map<string, Row>, r: Row)
    ensures NoteTerminal(a + b, r) == a + NoteTerminal(b, r)
  {
  }

  /** A log without a deciding row has no terminal events. */
  lemma NoTerminals(rows: seq<Row>)
    requires forall r :: r in rows ==> !Decides(r)
    ensures TerminalOf(rows) == map[]
  {
    TerminalIsKeyed(rows);
    hide TerminalOf, FirstRows;
    assert TerminalOf(rows).Keys == {};
  }

  // ---------- the terminal row of one driven event ----------

  function IsSettled(d: Delivery, s: AgentState): bool { d.Fresh? && d.trace.end == Finished(s) }

  lemma OneEventTerminal(rows: seq<Row>, id: string)
    requires rows != [] && forall r :: r in rows ==> r.eventId == id
    requires Decides(rows[|rows| - 1])
    ensures TerminalOf(rows) == map[id := rows[|rows| - 1]]
  {
    hide TerminalOf, FirstRows, Decides, NoteTerminal, NoteFirst;
    TerminalIsKeyed(rows);
    var n := |rows| - 1;
    assert rows[..n] + [rows[n]] == rows;
    SnocFolds(rows[..n], rows[n]);
    NoteTerminalAt(TerminalOf(rows[..n]), rows[n], id);
    OneKey(TerminalOf(rows), id, rows[n]);
  }

  lemma OneKey(m: map<string, Row>, id: string, r: Row)
    requires id in m && m[id] == r && KeyedById(m) && forall i :: i in m ==> m[i].eventId == id
    ensures m == map[id := r]
  {
  }

  /** A driven event that finished in a terminal state leaves exactly that state
      behind, on a row with its amount; any other event leaves none. */
  lemma TraceSettles(env: Env, t: Task, base: nat, left: int)
    ensures var tr := RunFrom(MachineOf(env), t, base, 0, left);
            var rows := RowsOfSteps(tr.steps);
            if tr.end.Finished? && IsTerminalState(tr.end.state) then
              && rows != [] && rows[|rows| - 1].state == tr.end.state && rows[|rows| - 1].amount == Some(t.amount)
              && TerminalOf(rows) == map[t.eventId := rows[|rows| - 1]]
            else TerminalOf(rows) == map[]
  {
    hide RunFrom, MachineOf, WellFormed, Accepts, TerminalOf, RowsOfSteps;
    var tr := RunFrom(MachineOf(env), t, base, 0, left);
    var rows := RowsOfSteps(tr.steps);
    MachineIsWellFormed(env);
    TraceRows(MachineOf(env), t, base, 0, left);
    TraceGrammar(env, t, base, left);
    if tr.end.Finished? && IsTerminalState(tr.end.state) {
      LastRowShowsTheEnd(rows, 0, tr.end);
      assert rows[|rows| - 1] in rows;
      OneEventTerminal(rows, t.eventId);
    } else {
      forall r | r in rows ensures !Decides(r) {
        var i :| 0 <= i < |rows| && rows[i] == r;
        if IsTerminalState(r.state) {
          TerminalIsFinal(rows, 0, tr.end, i, i);
        }
      }
      NoTerminals(rows);
    }
  }

  // ---------- sums over the deliveries of a run ----------

  function Sum(ds: seq<Delivery>, v: Delivery -> int): int {
    if ds == [] then 0 else v(ds[0]) + Sum(ds[1..], v)
  }

  /** The weight of a delivery's terminal row is `v` of the delivery. */
  ghost predicate Measures(m: Machine, w: Row -> int, v: Delivery -> int) {
    forall d: Delivery :: IsDelivery(m, d.task, d) ==> Total(TerminalOf(DeliveryRows(d)), w) == v(d)
  }

  lemma LaterRowsSpareClaimed(m: Machine, tasks: seq<Task>, b: Book, id: string)
    requires WellFormed(m) && id in b.claimed
    ensures id !in TerminalOf(RunRows(m, tasks, b))
  {
    ClaimedIdHasNoRows(m, tasks, b, id);
    var rows := RunRows(m, tasks, b);
    TerminalIsKeyed(rows);
    hide TerminalOf, FirstRows, RunRows, Filter;
    assert forall r :: r in rows ==> r !in Filter(rows, EventRow(id));
  }

  /** Terminal rows of a run: those of its first delivery, then those of the rest,
      and the two parts are about different events. */
  lemma RunTerminalUnfold(env: Env, tasks: seq<Task>, b: Book, w: Row -> int)
    requires tasks != [] && tasks[0].eventId !in b.claimed && b.left > 0
    ensures var m := MachineOf(env);
            var d := Drive(m, tasks[0], b);
            && TerminalOf(RunRows(m, tasks, b))
              == TerminalOf(DeliveryRows(d)) + TerminalOf(RunRows(m, tasks[1..], After(b, d)))
            && Total(TerminalOf(RunRows(m, tasks, b)), w)
               == Total(TerminalOf(DeliveryRows(d)), w) + Total(TerminalOf(RunRows(m, tasks[1..], After(b, d))), w)
  {
    hide RunFrom, MachineOf, WellFormed, TerminalOf, Executions, RowsOfSteps, Total, RunRows;
    var m := MachineOf(env);
    var t, d := tasks[0], Drive(m, tasks[0], b);
    RunRowsUnfold(m, tasks, b);
    TerminalConcat(DeliveryRows(d), RunRows(m, tasks[1..], After(b, d)));
    TraceSettles(env, t, d.base, d.left);
    MachineIsWellFormed(env);
    LaterRowsSpareClaimed(m, tasks[1..], After(b, d), t.eventId);
    TotalMerge(TerminalOf(DeliveryRows(d)), TerminalOf(RunRows(m, tasks[1..], After(b, d))), w);
  }

  lemma MarkerSettlesNothing(m: Machine, t: Task, rest: seq<Row>)
    ensures TerminalOf([DuplicateRow(m.now, t)] + rest) == TerminalOf(rest)
    ensures TerminalOf([DuplicateRow(m.now, t)]) == map[]
  {
    TerminalConcat([DuplicateRow(m.now, t)], rest);
    NoTerminals([DuplicateRow(m.now, t)]);
    hide TerminalOf;
    assert map[] + TerminalOf(rest) == TerminalOf(rest);
  }

  lemma {:induction false} RunTotals(env: Env, tasks: seq<Task>, b: Book, w: Row -> int, v: Delivery -> int)
    requires Measures(MachineOf(env), w, v)
    ensures Total(TerminalOf(RunRows(MachineOf(env), tasks, b)), w)
            == Sum(Process(MachineOf(env), tasks, b).deliveries, v)
  {
    hide RunFrom, MachineOf, TerminalOf, Executions, RowsOfSteps, RunRows, Touched;
    var m := MachineOf(env);
    if tasks == [] || (tasks[0].eventId !in b.claimed && b.left <= 0) {
      NoRowsNoTotal(m, tasks, b, w);
    } else {
      var t, run := tasks[0], Process(m, tasks, b);
      if t.eventId in b.claimed {
        RunRowsUnfold(m, tasks, b);
        MarkerSettlesNothing(m, t, RunRows(m, tasks[1..], b));
        RunTotals(env, tasks[1..], b, w, v);
        assert IsDelivery(m, t, run.deliveries[0]);
        assert run.deliveries[1..] == Process(m, tasks[1..], b).deliveries;
      } else {
        var d := Drive(m, t, b);
        RunTerminalUnfold(env, tasks, b, w);
        RunTotals(env, tasks[1..], After(b, d), w, v);
        assert IsDelivery(m, t, d);
        assert run.deliveries[1..] == Process(m, tasks[1..], After(b, d)).deliveries;
      }
    }
  }

  lemma NoRowsNoTotal(m: Machine, tasks: seq<Task>, b: Book, w: Row -> int)
    requires tasks == [] || (tasks[0].eventId !in b.claimed && b.left <= 0)
    ensures Process(m, tasks, b).deliveries == []
    ensures Total(TerminalOf(RunRows(m, tasks, b)), w) == 0
  {
  }

  // ---------- the metrics of a run ----------

  function SettledIn(s: AgentState): Delivery -> int { (d: Delivery) => if IsSettled(d, s) then 1 else 0 }

  function RecoveredOf(): Delivery -> int { (d: Delivery) => if IsSettled(d, Recovered) then d.task.amount else 0 }

  function AtRiskOf(): Delivery -> int {
    (d: Delivery) =>
      if d.Fresh? && d.trace.end.Finished? && IsTerminalState(d.trace.end.state) then d.task.amount else 0
  }

  lemma TotalOfOne(id: string, r: Row, w: Row -> int)
    ensures Total(map[id := r], w) == w(r)
    ensures Total<string, Row>(map[], w) == 0
  {
    var m := map[id := r];
    TotalPick(m, id, w);
    assert m - {id} == map[];
  }

  lemma DeliveryMeasures(env: Env, d: Delivery, s: AgentState)
    requires IsDelivery(MachineOf(env), d.task, d) && IsTerminalState(s)
    ensures Total(TerminalOf(DeliveryRows(d)), InState(s)) == SettledIn(s)(d)
    ensures Total(TerminalOf(DeliveryRows(d)), RecoveredAmountOf) == RecoveredOf()(d)
    ensures Total(TerminalOf(DeliveryRows(d)), AmountOf) == AtRiskOf()(d)
  {
    hide RunFrom, MachineOf, TerminalOf, RowsOfSteps, Total;
    var rows := DeliveryRows(d);
    if d.Duplicate? {
      MarkerSettlesNothing(MachineOf(env), d.task, []);
    } else {
      TraceSettles(env, d.task, d.base, d.left);
    }
    var r := if rows == [] then DuplicateRow(0, d.task) else rows[|rows| - 1];
    TotalOfOne(d.task.eventId, r, InState(s));
    TotalOfOne(d.task.eventId, r, RecoveredAmountOf);
    TotalOfOne(d.task.eventId, r, AmountOf);
  }

  lemma MetricsMeasure(env: Env, s: AgentState)
    requires IsTerminalState(s)
    ensures Measures(MachineOf(env), InState(s), SettledIn(s))
    ensures Measures(MachineOf(env), RecoveredAmountOf, RecoveredOf())
    ensures Measures(MachineOf(env), AmountOf, AtRiskOf())
  {
    hide MachineOf, TerminalOf, Total, DeliveryRows, IsDelivery, InState, SettledIn, RecoveredOf, AtRiskOf;
    forall d: Delivery | IsDelivery(MachineOf(env), d.task, d)
      ensures Total(TerminalOf(DeliveryRows(d)), InState(s)) == SettledIn(s)(d)
      ensures Total(TerminalOf(DeliveryRows(d)), RecoveredAmountOf) == RecoveredOf()(d)
      ensures Total(TerminalOf(DeliveryRows(d)), AmountOf) == AtRiskOf()(d)
    {
      DeliveryMeasures(env, d, s);
    }
  }

  lemma {:induction false} EscapesAreEscalations(ds: seq<Delivery>)
    ensures |Escapes(ds)| == Sum(ds, SettledIn(Escalated))
  {
    if ds != [] {
      EscapesAreEscalations(ds[1..]);
    }
  }

  /** The escape list holds exactly the escalated events, each with its facts. */
  lemma {:induction false} EscapesAre(ds: seq<Delivery>, x: Escape)
    ensures x in Escapes(ds) <==>
              exists d :: d in ds && IsSettled(d, Escalated) && x.eventId == d.task.eventId && x.flow == d.task.flow
                          && x.reason == d.task.reason && x.amount == d.task.amount
  {
    if ds != [] {
      EscapesAre(ds[1..], x);
      assert ds == [ds[0]] + ds[1..];
    }
  }

  /** The metrics of a run's rows count exactly the events that ended so, and sum
      exactly their amounts; the escalated count is the length of the escape list. */
  lemma MetricsTellTheRun(env: Env, tasks: seq<Task>, b: Book)
    ensures var ds, m := Process(MachineOf(env), tasks, b).deliveries, MetricsOf(RunRows(MachineOf(env), tasks, b));
            && m.recoveredCount == Sum(ds, SettledIn(Recovered))
            && m.escalatedCount == Sum(ds, SettledIn(Escalated)) == |Escapes(ds)|
            && m.abandonedCount == Sum(ds, SettledIn(Abandoned))
            && m.suppressedCount == Sum(ds, SettledIn(Suppressed))
            && m.recoveredAmount == Sum(ds, RecoveredOf())
            && m.totalAtRisk == Sum(ds, AtRiskOf())
  {
    hide MachineOf, TerminalOf, Total, RunRows, Process, Scanned, Tallied, FlowKeys, Measures, TouchesOfFlows, Sum,
         Escapes;
    MetricsMeasure(env, Recovered);
    MetricsMeasure(env, Escalated);
    MetricsMeasure(env, Abandoned);
    MetricsMeasure(env, Suppressed);
    RunTotals(env, tasks, b, InState(Recovered), SettledIn(Recovered));
    RunTotals(env, tasks, b, InState(Escalated), SettledIn(Escalated));
    RunTotals(env, tasks, b, InState(Abandoned), SettledIn(Abandoned));
    RunTotals(env, tasks, b, InState(Suppressed), SettledIn(Suppressed));
    RunTotals(env, tasks, b, RecoveredAmountOf, RecoveredOf());
    RunTotals(env, tasks, b, AmountOf, AtRiskOf());
    EscapesAreEscalations(Process(MachineOf(env), tasks, b).deliveries);
  }

  /** On a log with a past, the run's metrics add to the past's: a run never
      rewrites the outcome of an event claimed before it. */
  lemma RunsAddUp(env: Env, past: seq<Row>, tasks: seq<Task>, b: Book)
    requires forall r :: r in past ==> r.eventId in b.claimed
    ensures var rows := RunRows(MachineOf(env), tasks, b);
            var before, added, after := MetricsOf(past), MetricsOf(rows), MetricsOf(past + rows);
            && after.totalEvents == before.totalEvents + added.totalEvents
            && after.recoveredCount == before.recoveredCount + added.recoveredCount
            && after.escalatedCount == before.escalatedCount + added.escalatedCount
            && after.abandonedCount == before.abandonedCount + added.abandonedCount
            && after.suppressedCount == before.suppressedCount + added.suppressedCount
            && after.recoveredAmount == before.recoveredAmount + added.recoveredAmount
            && after.totalAtRisk == before.totalAtRisk + added.totalAtRisk
  {
    hide MachineOf, TerminalOf, Total, RunRows, Scanned, Tallied, FlowKeys, TouchesOfFlows, FirstRows, WellFormed,
         Ratio;
    var rows := RunRows(MachineOf(env), tasks, b);
    MachineIsWellFormed(env);
    TerminalConcat(past, rows);
    TerminalIsKeyed(past);
    forall id | id in TerminalOf(past) ensures id !in TerminalOf(rows) {
      LaterRowsSpareClaimed(MachineOf(env), tasks, b, id);
    }
    MergedTotals(TerminalOf(past), TerminalOf(rows));
  }

  lemma MergedTotals(a: map<string, Row>, b: map<string, Row>)
    requires a.Keys !! b.Keys
    ensures |a + b| == |a| + |b|
    ensures Total(a + b, InState(Recovered)) == Total(a, InState(Recovered)) + Total(b, InState(Recovered))
    ensures Total(a + b, InState(Escalated)) == Total(a, InState(Escalated)) + Total(b, InState(Escalated))
    ensures Total(a + b, InState(Abandoned)) == Total(a, InState(Abandoned)) + Total(b, InState(Abandoned))
    ensures Total(a + b, InState(Suppressed)) == Total(a, InState(Suppressed)) + Total(b, InState(Suppressed))
    ensures Total(a + b, RecoveredAmountOf) == Total(a, RecoveredAmountOf) + Total(b, RecoveredAmountOf)
    ensures Total(a + b, AmountOf) == Total(a, AmountOf) + Total(b, AmountOf)
  {
    hide Total;
    TotalMerge(a, b, One);
    TotalOnes(a, One);
    TotalOnes(b, One);
    TotalOnes(a + b, One);
    TotalMerge(a, b, InState(Recovered));
    TotalMerge(a, b, InState(Escalated));
    TotalMerge(a, b, InState(Abandoned));
    TotalMerge(a, b, InState(Suppressed));
    TotalMerge(a, b, RecoveredAmountOf);
    TotalMerge(a, b, AmountOf);
  }

  // ---------- touches ----------

  lemma {:induction false} FlowTouchesConcat(a: seq<Row>, b: seq<Row>, n: nat)
    requires n <= |FLOW_TYPES|
    ensures TouchesOfFlows(a + b, n) == TouchesOfFlows(a, n) + TouchesOfFlows(b, n)
  {
    if n > 0 {
      FlowTouchesConcat(a, b, n - 1);
      FilterConcat(a, b, TouchOn(FLOW_TYPES[n - 1]));
    }
  }

  lemma FlowTouchesOfOne(r: Row, f: Flow)
    ensures |Filter([r], TouchOn(f))| == if IsTouch(r) && r.flow == f then 1 else 0
    ensures Filter([], TouchOn(f)) == []
  {
    assert Filter([r], TouchOn(f)) == if TouchOn(f)(r) then [r] else [];
  }

  lemma {:induction false} TouchesOfOne(r: Row, n: nat)
    requires n <= |FLOW_TYPES|
    ensures TouchesOfFlows([r], n) == if IsTouch(r) && r.flow in FLOW_TYPES[..n] then 1 else 0
    ensures TouchesOfFlows([], n) == 0
  {
    hide Filter, IsTouch, TouchOn;
    if n > 0 {
      TouchesOfOne(r, n - 1);
      FlowTouchesOfOne(r, FLOW_TYPES[n - 1]);
      forall i | 0 <= i < n - 1 { FlowsDiffer(i, n - 1); }
      assert FLOW_TYPES[..n] == FLOW_TYPES[..n - 1] + [FLOW_TYPES[n - 1]];
    }
  }

  /** The touches the metrics count in some rows. */
  function TouchesIn(rows: seq<Row>): int { TouchesOfFlows(rows, |FLOW_TYPES|) }

  function TouchCount(r: Row): int { if IsTouch(r) && !r.flow.OtherFlow? then 1 else 0 }

  lemma TouchesInParts(a: seq<Row>, b: seq<Row>)
    ensures TouchesIn(a + b) == TouchesIn(a) + TouchesIn(b)
    ensures TouchesIn([]) == 0
    ensures |a| == 1 ==> TouchesIn(a) == TouchCount(a[0])
    ensures |a| == 2 ==> TouchesIn(a) == TouchCount(a[0]) + TouchCount(a[1])
  {
    hide TouchesOfFlows;
    var n := |FLOW_TYPES|;
    FlowTouchesConcat(a, b, n);
    KnownFlowsAreListed();
    assert FLOW_TYPES[..n] == FLOW_TYPES;
    var t := Task("", MandateRetry, "", 0, "", "", CardExpired, None, 0, None, false, 0, 0, 0.0, false);
    TouchesOfOne(DuplicateRow(0, t), n);
    if |a| == 1 {
      TouchesOfOne(a[0], n);
      assert a == [a[0]];
    } else if |a| == 2 {
      TouchesOfOne(a[0], n);
      TouchesOfOne(a[1], n);
      FlowTouchesConcat([a[0]], [a[1]], n);
      assert a == [a[0]] + [a[1]];
    }
  }

  lemma TurnTouches(env: Env, t: Task, k: nat, touches: nat)
    ensures var turn := TakeTurn(env, t, k, touches);
            TouchesIn(StepRows(turn.step)) == (if turn.step.executed then (if turn.next.None? then 2 else 1) else 0)
    ensures var turn := TakeTurn(env, t, k, touches);
            turn.step.executed && turn.next.Some? ==> turn.next.value.Recovered?
  {
    hide Engines.Decide, TouchesIn, Execution.ExecuteAction;
    TurnActsOnDecision(env, t, k, touches);
    DecideNeverMarksDuplicates(env.tun, env.clock, t, k, touches);
    var step := TakeTurn(env, t, k, touches).step;
    TouchesInParts([step.before], step.after);
    TouchesInParts(step.after, []);
  }

  /** The event was recovered by its last touch. */
  predicate ByTouch(tr: Trace) {
    tr.end == Finished(Recovered) && tr.steps != [] && tr.steps[|tr.steps| - 1].executed
  }

  /** A trace leaves two touch rows per execution, but one for a touch that
      recovered. */
  predicate ToldTwice(tr: Trace) {
    TouchesIn(RowsOfSteps(tr.steps)) == 2 * Executions(tr.steps) - (if ByTouch(tr) then 1 else 0)
  }

  lemma NothingToldTwice(end: End)
    ensures ToldTwice(Trace([], end))
  {
    hide TouchesIn;
    TouchesInParts([], []);
  }

  lemma LastToldTwice(s: Step, state: AgentState)
    requires TouchesIn(StepRows(s)) == if s.executed then 1 else 0
    requires s.executed ==> state.Recovered?
    ensures ToldTwice(Trace([s], Finished(state)))
  {
    hide TouchesIn, StepRows;
    assert [s][1..] == [] && RowsOfSteps([s]) == StepRows(s) + [] == StepRows(s);
    assert Executions([s]) == if s.executed then 1 else 0;
    assert ByTouch(Trace([s], Finished(state))) <==> s.executed;
  }

  lemma MoreToldTwice(s: Step, rest: Trace)
    requires s.executed && TouchesIn(StepRows(s)) == 2 && ToldTwice(rest)
    requires rest.steps == [] ==> !rest.end.Finished?
    ensures ToldTwice(Trace([s] + rest.steps, rest.end))
  {
    hide TouchesIn, StepRows;
    assert ([s] + rest.steps)[1..] == rest.steps;
    TouchesInParts(StepRows(s), RowsOfSteps(rest.steps));
  }

  lemma TraceUnfolds(m: Machine, t: Task, base: nat, k: nat, left: int)
    requires k <= GUARD
    ensures var tr, turn := RunFrom(m, t, base, k, left), m.turn(t, k, base + k);
            && (tr.steps == [] ==> !tr.end.Finished?)
            && if k == GUARD then tr == Trace([], GuardCut)
               else if left <= 0 then tr == Trace([], BudgetCut)
               else if turn.next.Some? then tr == Trace([turn.step], Finished(turn.next.value))
               else
                 var rest := RunFrom(m, t, base, k + 1, left - 1);
                 tr == Trace([turn.step] + rest.steps, rest.end)
  {
  }

  lemma {:induction false} TraceTouches(env: Env, t: Task, base: nat, k: nat, left: int)
    requires k <= GUARD
    ensures ToldTwice(RunFrom(MachineOf(env), t, base, k, left))
    decreases GUARD - k
  {
    hide RunFrom, MachineOf, TakeTurn, ToldTwice, TouchesIn, StepRows, WellFormed;
    var m := MachineOf(env);
    TraceUnfolds(m, t, base, k, left);
    if k < GUARD && left > 0 {
      var turn := m.turn(t, k, base + k);
      MachineTurns(env, t, k, base + k);
      TurnTouches(env, t, k, base + k);
      MachineIsWellFormed(env);
      TurnsAreWellFormed(m, t, k, base + k);
      if turn.next.None? {
        TraceTouches(env, t, base, k + 1, left - 1);
        TraceUnfolds(m, t, base, k + 1, left - 1);
        MoreToldTwice(turn.step, RunFrom(m, t, base, k + 1, left - 1));
      } else {
        LastToldTwice(turn.step, turn.next.value);
      }
    } else {
      NothingToldTwice(GuardCut);
      NothingToldTwice(BudgetCut);
    }
  }

  lemma MachineTurns(env: Env, t: Task, k: nat, touches: nat)
    ensures MachineOf(env).turn(t, k, touches) == TakeTurn(env, t, k, touches)
  {
  }

  function ExecutionsOf(): Delivery -> int { (d: Delivery) => if d.Fresh? then Executions(d.trace.steps) else 0 }

  function RecoveredByTouch(): Delivery -> int { (d: Delivery) => if d.Fresh? && ByTouch(d.trace) then 1 else 0 }

  /** `touchesSent` is not the number of touches: every failed touch is counted
      twice, once for its decision row and once for its action row. */
  lemma {:induction false} TouchesSentCountsFailuresTwice(env: Env, tasks: seq<Task>, b: Book)
    ensures var ds := Process(MachineOf(env), tasks, b).deliveries;
            MetricsOf(RunRows(MachineOf(env), tasks, b)).touchesSent
            == 2 * Sum(ds, ExecutionsOf()) - Sum(ds, RecoveredByTouch())
  {
    RunTouches(env, tasks, b);
    hide TouchesOfFlows, TerminalOf, Total;
  }

  lemma {:induction false} RunTouches(env: Env, tasks: seq<Task>, b: Book)
    ensures var ds := Process(MachineOf(env), tasks, b).deliveries;
            TouchesIn(RunRows(MachineOf(env), tasks, b)) == 2 * Sum(ds, ExecutionsOf()) - Sum(ds, RecoveredByTouch())
  {
    hide RunFrom, MachineOf, Executions, RowsOfSteps, RunRows, Touched, TouchesIn, ByTouch;
    var m := MachineOf(env);
    TouchesInParts([], []);
    if tasks == [] {
      RunOfNothing(m, b);
    } else {
      var t, run := tasks[0], Process(m, tasks, b);
      RunRowsUnfold(m, tasks, b);
      if t.eventId in b.claimed {
        RunTouches(env, tasks[1..], b);
        TouchesInParts([DuplicateRow(m.now, t)], RunRows(m, tasks[1..], b));
        assert run.deliveries[1..] == Process(m, tasks[1..], b).deliveries;
      } else if b.left > 0 {
        var d := Drive(m, t, b);
        TraceTouches(env, t, d.base, 0, d.left);
        RunTouches(env, tasks[1..], After(b, d));
        TouchesInParts(RowsOfSteps(d.trace.steps), RunRows(m, tasks[1..], After(b, d)));
        assert run.deliveries[1..] == Process(m, tasks[1..], After(b, d)).deliveries;
      }
    }
  }
}
