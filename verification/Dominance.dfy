/** The naive baseline recovers whatever the real policy recovers by touching:
    both try attempts 0, 1, 2, ... with the same deterministic executor
    (go/rz/naive.go:43-147, go/rz/runner.go:98-164, go/rz/execution.go:48-211). */
module Dominance {
  import opened Types
  import opened Classify
  import opened Execution
  import opened Loop
  import opened Runner
  import opened Bounds
  import opened Metrics
  import opened Settlement
  import opened Naive
  import Eligibility
  import Engines

  /** The first attempt whose touch recovers the event. */
  predicate SucceedsFirstAt(draw: Draw, t: Task, k: nat)
    requires !t.flow.OtherFlow?
  {
    ExecuteAction(draw, t, k).recovered && forall j: nat :: j < k ==> !ExecuteAction(draw, t, j).recovered
  }

  predicate FailsBefore(draw: Draw, t: Task, k: nat)
    requires !t.flow.OtherFlow?
  {
    forall j: nat :: j < k ==> !ExecuteAction(draw, t, j).recovered
  }

  // ---------- how a naive event ends ----------

  function Last(rows: seq<Row>): Row
    requires rows != []
  {
    rows[|rows| - 1]
  }

  lemma EventRowsUnfold(now: int, draw: Draw, t: Task, k: nat)
    requires !t.flow.OtherFlow? && k <= NAIVE_MAX_ATTEMPTS
    ensures var rows := EventRows(now, draw, t, k);
            if k == NAIVE_MAX_ATTEMPTS then
              |rows| == 1 && EndRow(rows[0], t, k) && rows[0].state.Abandoned?
            else if ExecuteAction(draw, t, k).recovered then
              |rows| == 2 && rows[0].eventId == t.eventId && EndRow(rows[1], t, k) && rows[1].state.Recovered?
            else
              rows == [rows[0]] + EventRows(now, draw, t, k + 1) && rows[0].eventId == t.eventId
  {
    hide ExecuteAction;
  }

  predicate EndRow(r: Row, t: Task, k: nat) {
    r.eventId == t.eventId && Decides(r) && r.amount == Some(t.amount) && r.attempt == Some(k)
  }

  lemma {:induction false} NaiveEnding(now: int, draw: Draw, t: Task, k: nat)
    requires !t.flow.OtherFlow? && k <= NAIVE_MAX_ATTEMPTS && FailsBefore(draw, t, k)
    ensures var rows := EventRows(now, draw, t, k);
            && rows != [] && (forall r :: r in rows ==> r.eventId == t.eventId)
            && var last := Last(rows);
            && Decides(last) && last.amount == Some(t.amount) && last.attempt.Some?
            && if last.state.Recovered? then
                 0 <= last.attempt.value < NAIVE_MAX_ATTEMPTS && SucceedsFirstAt(draw, t, last.attempt.value)
               else last.state.Abandoned? && FailsBefore(draw, t, NAIVE_MAX_ATTEMPTS)
    decreases NAIVE_MAX_ATTEMPTS - k
  {
    hide ExecuteAction, MakeTouch;
    EventRowsUnfold(now, draw, t, k);
    hide EventRows, NaiveRow, ParkedRow;
    if k < NAIVE_MAX_ATTEMPTS && !ExecuteAction(draw, t, k).recovered {
      NaiveEnding(now, draw, t, k + 1);
      var rest := EventRows(now, draw, t, k + 1);
      assert Last(EventRows(now, draw, t, k)) == Last(rest);
    }
  }

  /** A naive event recovers exactly when one of its ten blind attempts succeeds,
      and at the first that does; otherwise it is parked as abandoned. */
  lemma NaiveRecoversIff(now: int, draw: Draw, t: Task)
    requires !t.flow.OtherFlow?
    ensures var rows := EventRows(now, draw, t, 0);
            && rows != []
            && TerminalOf(rows) == map[t.eventId := Last(rows)]
            && Last(rows).amount == Some(t.amount)
            && (Last(rows).state.Recovered? || Last(rows).state.Abandoned?)
            && forall k: nat :: SucceedsFirstAt(draw, t, k) ==>
                 (Last(rows).state.Recovered? <==> k < NAIVE_MAX_ATTEMPTS)
                 && (k < NAIVE_MAX_ATTEMPTS ==> Last(rows).attempt == Some(k))
    ensures Last(EventRows(now, draw, t, 0)).state.Recovered? ==>
              exists k: nat :: k < NAIVE_MAX_ATTEMPTS && SucceedsFirstAt(draw, t, k)
  {
    hide TerminalOf, EventRows, ExecuteAction;
    NaiveEnding(now, draw, t, 0);
    OneEventTerminal(EventRows(now, draw, t, 0), t.eventId);
  }

  // ---------- how a real event recovers ----------

  /** A real recovery by touch happens at the first successful attempt. */
  lemma RealRecoversFirst(env: Env, t: Task, base: nat, left: int)
    requires ByTouch(RunFrom(MachineOf(env), t, base, 0, left))
    ensures !t.flow.OtherFlow?
    ensures SucceedsFirstAt(env.draw, t, |RunFrom(MachineOf(env), t, base, 0, left).steps| - 1)
  {
    hide MachineOf, RunFrom, ExecuteAction, Engines.Acts;
    var m, n := MachineOf(env), |RunFrom(MachineOf(env), t, base, 0, left).steps|;
    TraceShape(m, t, base, 0, left);
    TurnExecutes(env, t, n - 1, base + n - 1);
    assert RunFrom(m, t, base, 0, left).steps[n - 1] == TurnAt(m, t, base, n - 1).step;
    forall j: nat | j < n - 1 ensures !ExecuteAction(env.draw, t, j).recovered {
      assert TurnAt(m, t, base, j).next.None?;
      TurnExecutes(env, t, j, base + j);
    }
  }

  /** So the naive run recovers the same event at the same attempt - exactly when
      that attempt is within its ten. */
  lemma NaiveMatchesTouchRecovery(env: Env, t: Task, base: nat, left: int, now: int)
    requires ByTouch(RunFrom(MachineOf(env), t, base, 0, left))
    ensures !t.flow.OtherFlow?
    ensures var k, last := |RunFrom(MachineOf(env), t, base, 0, left).steps| - 1, Last(EventRows(now, env.draw, t, 0));
            && (last.state.Recovered? <==> k < NAIVE_MAX_ATTEMPTS)
            && (last.state.Recovered? ==> last.attempt == Some(k))
  {
    hide MachineOf, RunFrom, EventRows, TerminalOf, SucceedsFirstAt;
    RealRecoversFirst(env, t, base, left);
    NaiveRecoversIff(now, env.draw, t);
  }

  /** Flows with a touch cap recover only by touching, and before the cap. */
  lemma CappedRecoveryIsByTouch(env: Env, t: Task, base: nat, left: int)
    requires TouchCapped(t) && RunFrom(MachineOf(env), t, base, 0, left).end == Finished(Recovered)
    ensures var tr := RunFrom(MachineOf(env), t, base, 0, left);
            ByTouch(tr) && |tr.steps| <= env.tun.maxTouchesPerCustomer
  {
    hide MachineOf, RunFrom, Engines.Acts, ExecuteAction;
    var m, tr := MachineOf(env), RunFrom(MachineOf(env), t, base, 0, left);
    var n := |tr.steps|;
    TraceShape(m, t, base, 0, left);
    assert tr.steps[n - 1] == TurnAt(m, t, base, n - 1).step;
    OnlyTouchesRecover(env, t, n - 1, base + n - 1);
    EnginesRespectTheCap(env, t);
  }

  lemma OnlyTouchesRecover(env: Env, t: Task, k: nat, touches: nat)
    requires TouchCapped(t) && MachineOf(env).turn(t, k, touches).next == Some(Recovered)
    ensures MachineOf(env).turn(t, k, touches).step.executed
  {
    TurnActsOnDecision(env, t, k, touches);
    CappedFlowsNeverJustRecover(env, t, k, touches);
    hide Engines.Decide, ExecuteAction;
  }

  lemma CappedFlowsNeverJustRecover(env: Env, t: Task, k: nat, touches: nat)
    requires TouchCapped(t)
    ensures Engines.Decide(env.tun, env.clock, t, k, touches).decision != Recover
  {
  }

  /** Naive dominance, event by event: with a touch cap of at most ten, an event of
      a touch-capped flow that the real policy recovers is recovered by the naive
      run at the same attempt. */
  lemma NaiveDominates(env: Env, t: Task, base: nat, left: int, now: int)
    requires TouchCapped(t) && env.tun.maxTouchesPerCustomer <= NAIVE_MAX_ATTEMPTS
    requires RunFrom(MachineOf(env), t, base, 0, left).end == Finished(Recovered)
    ensures !t.flow.OtherFlow?
    ensures var last := Last(EventRows(now, env.draw, t, 0));
            last.state.Recovered? && last.attempt == Some(|RunFrom(MachineOf(env), t, base, 0, left).steps| - 1)
  {
    hide MachineOf, RunFrom, EventRows, ByTouch;
    CappedRecoveryIsByTouch(env, t, base, left);
    NaiveMatchesTouchRecovery(env, t, base, left, now);
  }

  // ---------- whole batches, as the metrics see them ----------

  /** A redelivered id always carries the same event. */
  predicate RedeliveriesAgree(tasks: seq<Task>) {
    forall i, j :: 0 <= i < |tasks| && 0 <= j < |tasks| && tasks[i].eventId == tasks[j].eventId ==> tasks[i] == tasks[j]
  }

  lemma {:induction false} NaiveTerminals(now: int, draw: Draw, tasks: seq<Task>)
    requires KnownFlows(tasks) && RedeliveriesAgree(tasks)
    ensures forall t :: t in tasks ==>
              && t.eventId in TerminalOf(NaiveRows(now, draw, tasks))
              && EventRows(now, draw, t, 0) != []
              && TerminalOf(NaiveRows(now, draw, tasks))[t.eventId] == Last(EventRows(now, draw, t, 0))
  {
    hide TerminalOf, EventRows, SucceedsFirstAt;
    if tasks != [] {
      var first, rest := EventRows(now, draw, tasks[0], 0), NaiveRows(now, draw, tasks[1..]);
      NaiveTerminals(now, draw, tasks[1..]);
      NaiveRecoversIff(now, draw, tasks[0]);
      TerminalConcat(first, rest);
      NaiveIds(now, draw, tasks[1..]);
      forall t | t in tasks
        ensures t.eventId in TerminalOf(first + rest) && EventRows(now, draw, t, 0) != []
        ensures TerminalOf(first + rest)[t.eventId] == Last(EventRows(now, draw, t, 0))
      {
        if t !in tasks[1..] {
          assert t == tasks[0];
          if u :| u in tasks[1..] && u.eventId == t.eventId {
            SameIdSameTask(tasks, t, u);
            assert false;
          }
        }
      }
    }
  }

  lemma SameIdSameTask(tasks: seq<Task>, t: Task, u: Task)
    requires RedeliveriesAgree(tasks) && t in tasks && u in tasks && t.eventId == u.eventId
    ensures t == u
  {
  }

  lemma {:induction false} NaiveIds(now: int, draw: Draw, tasks: seq<Task>)
    requires KnownFlows(tasks)
    ensures forall id :: id in TerminalOf(NaiveRows(now, draw, tasks)) ==> exists t :: t in tasks && t.eventId == id
  {
    hide TerminalOf, EventRows, SucceedsFirstAt;
    if tasks == [] {
      NoTerminals([]);
    } else {
      NaiveIds(now, draw, tasks[1..]);
      NaiveRecoversIff(now, draw, tasks[0]);
      TerminalConcat(EventRows(now, draw, tasks[0], 0), NaiveRows(now, draw, tasks[1..]));
    }
  }

  /** Where a run's terminal rows come from. */
  lemma {:induction false} TerminalsComeFromDeliveries(env: Env, tasks: seq<Task>, b: Book, id: string)
    requires id in TerminalOf(RunRows(MachineOf(env), tasks, b))
    ensures exists d :: d in Process(MachineOf(env), tasks, b).deliveries
                        && d.Fresh? && d.task in tasks && d.task.eventId == id
                        && d.trace == RunFrom(MachineOf(env), d.task, d.base, 0, d.left)
                        && d.trace.end == Finished(TerminalOf(RunRows(MachineOf(env), tasks, b))[id].state)
                        && TerminalOf(RunRows(MachineOf(env), tasks, b))[id].amount == Some(d.task.amount)
  {
    hide RunFrom, MachineOf, TerminalOf, Executions, RunRows, Touched, RowsOfSteps;
    var m := MachineOf(env);
    NoRowsWithoutTasks(m, tasks, b);
    var t, run := tasks[0], Process(m, tasks, b);
    if t.eventId in b.claimed {
      RunRowsUnfold(m, tasks, b);
      MarkerSettlesNothing(m, t, RunRows(m, tasks[1..], b));
      TerminalsComeFromDeliveries(env, tasks[1..], b, id);
    } else {
      var d := Drive(m, t, b);
      RunTerminalUnfold(env, tasks, b, One);
      TraceSettles(env, t, d.base, d.left);
      if id in TerminalOf(RunRows(m, tasks[1..], After(b, d))) {
        TerminalsComeFromDeliveries(env, tasks[1..], After(b, d), id);
      } else {
        assert d == run.deliveries[0];
      }
    }
  }

  lemma NoRowsWithoutTasks(m: Machine, tasks: seq<Task>, b: Book)
    ensures tasks == [] || (tasks[0].eventId !in b.claimed && b.left <= 0) ==> TerminalOf(RunRows(m, tasks, b)) == map[]
  {
  }

  /** Weights that are matched key by key in a larger map have the smaller sum. */
  lemma {:induction false} TotalDominates(a: map<string, Row>, b: map<string, Row>, w: Row -> int)
    requires forall id :: id in b ==> w(b[id]) >= 0
    requires forall id :: id in a ==> w(a[id]) <= 0 || (id in b && w(a[id]) <= w(b[id]))
    ensures Total(a, w) <= Total(b, w)
    decreases |a|
  {
    if a == map[] {
      Eligibility.NonNegative(b, w);
    } else {
      var id :| id in a;
      TotalPick(a, id, w);
      if id in b {
        TotalPick(b, id, w);
      }
      assert b - {id} == if id in b then b - {id} else b;
      TotalDominates(a - {id}, b - {id}, w);
    }
  }

  /** Naive dominance on whole batches: in a batch of touch-capped flows the naive
      run recovers at least as many events, and at least as much, as the real one -
      whatever the real run's budget and claims. */
  lemma NaiveMetricsDominate(env: Env, tasks: seq<Task>, b: Book, now: int)
    requires forall t :: t in tasks ==> TouchCapped(t) && t.amount >= 0
    requires RedeliveriesAgree(tasks) && env.tun.maxTouchesPerCustomer <= NAIVE_MAX_ATTEMPTS
    ensures KnownFlows(tasks)
    ensures var bounded, naive := MetricsOf(RunRows(MachineOf(env), tasks, b)),
            MetricsOf(NaiveRows(now, env.draw, tasks));
            bounded.recoveredCount <= naive.recoveredCount && bounded.recoveredAmount <= naive.recoveredAmount
  {
    hide MachineOf, RunRows, NaiveRows, TerminalOf, Process, EventRows, RunFrom, Total, Scanned, Tallied, FlowKeys,
         TouchesOfFlows, TouchCapped;
    TouchCappedFlowsAreKnown(tasks);
    var bounded, naive := TerminalOf(RunRows(MachineOf(env), tasks, b)), TerminalOf(NaiveRows(now, env.draw, tasks));
    NaiveTerminals(now, env.draw, tasks);
    forall id | id in naive ensures AmountOf(naive[id]) >= 0 {
      NaiveIds(now, env.draw, tasks);
      var t :| t in tasks && t.eventId == id;
      NaiveRecoversIff(now, env.draw, t);
    }
    forall id | id in bounded && bounded[id].state.Recovered?
      ensures id in naive && naive[id].state.Recovered? && AmountOf(naive[id]) == AmountOf(bounded[id])
    {
      TerminalsComeFromDeliveries(env, tasks, b, id);
      var d :| d in Process(MachineOf(env), tasks, b).deliveries && d.Fresh? && d.task in tasks && d.task.eventId == id
            && d.trace == RunFrom(MachineOf(env), d.task, d.base, 0, d.left)
            && d.trace.end == Finished(bounded[id].state) && bounded[id].amount == Some(d.task.amount);
      NaiveDominates(env, d.task, d.base, d.left, now);
      NaiveRecoversIff(now, env.draw, d.task);
    }
    TotalDominates(bounded, naive, InState(Recovered));
    TotalDominates(bounded, naive, RecoveredAmountOf);
  }

  lemma TouchCappedFlowsAreKnown(tasks: seq<Task>)
    requires forall t :: t in tasks ==> TouchCapped(t)
    ensures KnownFlows(tasks)
  {
  }
}
