/** The control structure of the batch loop (go/rz/runner.go:34-217) over an
    arbitrary deterministic machine: the inner loop of one event with its guard
    and budget, and the outer loop with its claim gate and per-customer touch
    counters. `Runner` supplies the machine that the source runs;
    `Orchestrator.RunBatch` is the loop as a method, proved against `Process`. */
module Loop {
  import opened Types
  import opened Classify

  /** One turn of the inner loop: the decision row written first, whether the
      action was executed after it, and the rows written after that. */
  datatype Step = Step(attempt: nat, before: Row, executed: bool, after: seq<Row>)

  /** A step and the running-terminal state it ends in, if it ends the loop. */
  datatype Turn = Turn(step: Step, next: Option<AgentState>)

  /** The batch time, and the turn a task takes at an attempt when its customer
      has been touched so often. */
  datatype Machine = Machine(now: int, turn: (Task, nat, nat) -> Turn)

  datatype End = Finished(state: AgentState) | BudgetCut | GuardCut

  datatype Trace = Trace(steps: seq<Step>, end: End)

  const GUARD := 100

  /** The inner loop from attempt `k` on, when the customer had `base` touches
      before the event and `left` steps of the batch budget remain. */
  function RunFrom(m: Machine, t: Task, base: nat, k: nat, left: int): Trace
    requires k <= GUARD
    decreases GUARD - k, left
  {
    if k == GUARD then Trace([], GuardCut)
    else if left <= 0 then Trace([], BudgetCut)
    else
      var turn := m.turn(t, k, base + k);
      if turn.next.Some? then Trace([turn.step], Finished(turn.next.value))
      else
        var rest := RunFrom(m, t, base, k + 1, left - 1);
        Trace([turn.step] + rest.steps, rest.end)
  }

  function StepRows(s: Step): seq<Row> { [s.before] + s.after }

  function RowsOfSteps(steps: seq<Step>): seq<Row> {
    if steps == [] then [] else StepRows(steps[0]) + RowsOfSteps(steps[1..])
  }

  /** How many touches a list of steps executed. */
  function Executions(steps: seq<Step>): nat {
    if steps == [] then 0 else (if steps[0].executed then 1 else 0) + Executions(steps[1..])
  }

  // ---------- the outer loop ----------

  /** The per-customer touch counters of a batch. */
  datatype Touches = Touches(counts: map<string, nat>)

  /** A customer's counter; an absent one is 0. */
  function Seen(touches: Touches, customer: string): nat {
    if customer in touches.counts then touches.counts[customer] else 0
  }

  function Touched(touches: Touches, customer: string, count: nat): Touches {
    if count == 0 then touches else Touches(touches.counts[customer := Seen(touches, customer) + count])
  }

  /** The loop's state between events. */
  datatype Book = Book(claimed: set<string>, touches: Touches, left: int) {
    function TouchesOf(customer: string): nat {
      Seen(touches, customer)
    }
  }

  datatype Delivery =
    | Duplicate(task: Task, row: Row)
    | Fresh(task: Task, base: nat, left: int, trace: Trace)

  datatype Run = Run(deliveries: seq<Delivery>, book: Book, limitHit: bool)

  function DuplicateRow(now: int, t: Task): Row {
    Row(t.eventId, now, t.flow, t.reason, RuleDuplicateSuppress, Suppress, PolicyEngine, "",
        Suppressed, None, Some(t.amount), t.currency, t.invoiceId, t.customerId, NoChannel, "", "")
  }

  /** Driving one freshly claimed task. */
  function Drive(m: Machine, t: Task, b: Book): Delivery {
    Fresh(t, b.TouchesOf(t.customerId), b.left, RunFrom(m, t, b.TouchesOf(t.customerId), 0, b.left))
  }

  function After(b: Book, d: Delivery): Book
    requires d.Fresh?
  {
    Book(b.claimed + {d.task.eventId},
         Touched(b.touches, d.task.customerId, Executions(d.trace.steps)),
         b.left - |d.trace.steps|)
  }

  /** The outer loop over a batch. A batch that runs out of budget stops at the
      next fresh event, which is by then claimed. */
  function Process(m: Machine, tasks: seq<Task>, b: Book): Run {
    if tasks == [] then Run([], b, false)
    else if tasks[0].eventId in b.claimed then
      var rest := Process(m, tasks[1..], b);
      rest.(deliveries := [Duplicate(tasks[0], DuplicateRow(m.now, tasks[0]))] + rest.deliveries)
    else if b.left <= 0 then
      Run([], b.(claimed := b.claimed + {tasks[0].eventId}), true)
    else
      var d := Drive(m, tasks[0], b);
      var rest := Process(m, tasks[1..], After(b, d));
      rest.(deliveries := [d] + rest.deliveries, limitHit := d.trace.end.BudgetCut? || rest.limitHit)
  }

  function DeliveryRows(d: Delivery): seq<Row> {
    if d.Duplicate? then [d.row] else RowsOfSteps(d.trace.steps)
  }

  function RowsOfDeliveries(ds: seq<Delivery>): seq<Row> {
    if ds == [] then [] else DeliveryRows(ds[0]) + RowsOfDeliveries(ds[1..])
  }

  /** All rows a run appends, in order. */
  function RunRows(m: Machine, tasks: seq<Task>, b: Book): seq<Row> {
    RowsOfDeliveries(Process(m, tasks, b).deliveries)
  }

  /** An escalated event, with the facts its summary is generated from. */
  datatype Escape = Escape(eventId: string, flow: Flow, reason: Reason, amount: int)

  function EscapeOf(t: Task): Escape { Escape(t.eventId, t.flow, t.reason, t.amount) }

  /** The events the run escalated, in order. */
  function Escapes(ds: seq<Delivery>): seq<Escape> {
    if ds == [] then []
    else (if ds[0].Fresh? && ds[0].trace.end == Finished(Escalated) then [EscapeOf(ds[0].task)] else [])
         + Escapes(ds[1..])
  }

  /** The book a batch starts with: no touches yet, the whole budget. */
  function Opening(claimed: set<string>, maxBatch: int): Book {
    Book(claimed, Touches(map[]), maxBatch)
  }

  // ---------- what a machine owes the loop ----------

  /** A row that carries its event's identity and is no duplicate marker. */
  predicate RowOf(now: int, t: Task, r: Row) {
    && r.eventId == t.eventId && r.customerId == t.customerId && r.flow == t.flow
    && r.reason == t.reason && r.timestamp == now && r.amount == Some(t.amount)
    && r.currency == t.currency && r.invoiceId == t.invoiceId
    && r.attempt.Some? && !IsDuplicate(r)
  }

  predicate WellFormedTurn(now: int, t: Task, k: nat, turn: Turn) {
    && turn.step.attempt == k
    && (forall r :: r in StepRows(turn.step) ==> RowOf(now, t, r) && r.attempt == Some(k))
    && (turn.next.None? ==> turn.step.executed)
    && (turn.next.Some? ==> RunningTerminal(turn.next.value))
  }

  /** Every turn writes rows of its own event, goes on only after executing a
      touch, and otherwise ends in a running-terminal state. */
  ghost predicate WellFormed(m: Machine) {
    forall t: Task, k: nat, touches: nat :: WellFormedTurn(m.now, t, k, m.turn(t, k, touches))
  }

  lemma TurnsAreWellFormed(m: Machine, t: Task, k: nat, touches: nat)
    requires WellFormed(m)
    ensures WellFormedTurn(m.now, t, k, m.turn(t, k, touches))
  {
  }

  // ---------- the shape of a trace ----------

  /** The turn taken at attempt `k` of an event whose customer had `base` touches. */
  function TurnAt(m: Machine, t: Task, base: nat, k: nat): Turn {
    m.turn(t, k, base + k)
  }

  predicate StepsAre(m: Machine, t: Task, base: nat, k: nat, steps: seq<Step>) {
    forall i {:trigger steps[i]} :: 0 <= i < |steps| ==> steps[i] == TurnAt(m, t, base, k + i).step
  }

  /** The turns of attempts `k`..`k + n - 1` all let the loop go on. */
  predicate GoesOn(m: Machine, t: Task, base: nat, k: nat, n: nat) {
    forall i {:trigger TurnAt(m, t, base, i)} :: k <= i < k + n ==> TurnAt(m, t, base, i).next.None?
  }

  lemma {:induction false} TraceStepsAre(m: Machine, t: Task, base: nat, k: nat, left: int)
    requires k <= GUARD
    ensures var n := |RunFrom(m, t, base, k, left).steps|;
            && n <= GUARD - k
            && (left >= 0 ==> n <= left)
            && StepsAre(m, t, base, k, RunFrom(m, t, base, k, left).steps)
    decreases GUARD - k
  {
    if k < GUARD && left > 0 {
      var turn := TurnAt(m, t, base, k);
      if turn.next.None? {
        TraceStepsAre(m, t, base, k + 1, left - 1);
        var tr, rest := RunFrom(m, t, base, k, left), RunFrom(m, t, base, k + 1, left - 1);
        forall i | 0 <= i < |tr.steps| ensures tr.steps[i] == TurnAt(m, t, base, k + i).step {
          if i > 0 {
            assert tr.steps[i] == rest.steps[i - 1];
          }
        }
      }
    }
  }

  lemma GoesOnLonger(m: Machine, t: Task, base: nat, k: nat, n: nat)
    requires TurnAt(m, t, base, k).next.None? && GoesOn(m, t, base, k + 1, n)
    ensures GoesOn(m, t, base, k, n + 1)
  {
    hide TurnAt;
  }

  /** A trace is the turns of consecutive attempts; all but the last let the loop
      go on, and the end says exactly why the loop stopped there. */
  lemma {:induction false} TraceShape(m: Machine, t: Task, base: nat, k: nat, left: int)
    requires k <= GUARD
    ensures var tr := RunFrom(m, t, base, k, left);
            var n := |tr.steps|;
            && n <= GUARD - k
            && (left >= 0 ==> n <= left)
            && StepsAre(m, t, base, k, tr.steps)
            && match tr.end
               case Finished(s) =>
                 n > 0 && GoesOn(m, t, base, k, n - 1) && TurnAt(m, t, base, k + n - 1).next == Some(s)
               case BudgetCut => n < GUARD - k && left <= n && GoesOn(m, t, base, k, n)
               case GuardCut => n == GUARD - k && GoesOn(m, t, base, k, n)
    decreases GUARD - k
  {
    TraceStepsAre(m, t, base, k, left);
    hide StepsAre;
    if k < GUARD && left > 0 {
      if TurnAt(m, t, base, k).next.None? {
        TraceShape(m, t, base, k + 1, left - 1);
        var rest := RunFrom(m, t, base, k + 1, left - 1);
        GoesOnLonger(m, t, base, k, if rest.end.Finished? then |rest.steps| - 1 else |rest.steps|);
      }
    }
  }

  lemma {:induction false} RowsOfStepsConcat(a: seq<Step>, b: seq<Step>)
    ensures RowsOfSteps(a + b) == RowsOfSteps(a) + RowsOfSteps(b)
    ensures Executions(a + b) == Executions(a) + Executions(b)
  {
    if a == [] {
      assert a + b == b;
    } else {
      assert (a + b)[1..] == a[1..] + b;
      RowsOfStepsConcat(a[1..], b);
    }
  }

  lemma {:induction false} EscapesConcat(a: seq<Delivery>, b: seq<Delivery>)
    ensures Escapes(a + b) == Escapes(a) + Escapes(b)
  {
    if a == [] {
      assert a + b == b;
    } else {
      assert (a + b)[1..] == a[1..] + b;
      EscapesConcat(a[1..], b);
    }
  }

  lemma {:induction false} RowsOfDeliveriesConcat(a: seq<Delivery>, b: seq<Delivery>)
    ensures RowsOfDeliveries(a + b) == RowsOfDeliveries(a) + RowsOfDeliveries(b)
  {
    hide DeliveryRows;
    if a == [] {
      assert a + b == b;
    } else {
      assert (a + b)[1..] == a[1..] + b;
      RowsOfDeliveriesConcat(a[1..], b);
    }
  }

  /** How a run unfolds by its first task. */
  lemma RunRowsUnfold(m: Machine, tasks: seq<Task>, b: Book)
    requires tasks != []
    ensures var t, run := tasks[0], Process(m, tasks, b);
            if t.eventId in b.claimed then
              && RunRows(m, tasks, b) == [DuplicateRow(m.now, t)] + RunRows(m, tasks[1..], b)
              && run.limitHit == Process(m, tasks[1..], b).limitHit
            else if b.left <= 0 then RunRows(m, tasks, b) == [] && run.limitHit
            else
              var d := Drive(m, t, b);
              && RunRows(m, tasks, b) == RowsOfSteps(d.trace.steps) + RunRows(m, tasks[1..], After(b, d))
              && run.limitHit == (d.trace.end.BudgetCut? || Process(m, tasks[1..], After(b, d)).limitHit)
  {
    var t, run := tasks[0], Process(m, tasks, b);
    if t.eventId in b.claimed {
      assert run.deliveries[1..] == Process(m, tasks[1..], b).deliveries;
    } else if b.left > 0 {
      assert run.deliveries[1..] == Process(m, tasks[1..], After(b, Drive(m, t, b))).deliveries;
    }
  }

  lemma {:induction false} TraceRows(m: Machine, t: Task, base: nat, k: nat, left: int)
    requires WellFormed(m) && k <= GUARD
    ensures forall r :: r in RowsOfSteps(RunFrom(m, t, base, k, left).steps) ==> RowOf(m.now, t, r)
    decreases GUARD - k
  {
    if k < GUARD && left > 0 {
      var turn := m.turn(t, k, base + k);
      assert WellFormedTurn(m.now, t, k, turn);
      if turn.next.None? {
        TraceRows(m, t, base, k + 1, left - 1);
        assert RunFrom(m, t, base, k, left).steps[1..] == RunFrom(m, t, base, k + 1, left - 1).steps;
      } else {
        assert RunFrom(m, t, base, k, left).steps[1..] == [];
      }
    }
  }

  /** A fresh event that starts with budget left writes at least one row. */
  lemma {:induction false} TraceNonEmpty(m: Machine, t: Task, base: nat, left: int)
    requires left > 0
    ensures RunFrom(m, t, base, 0, left).steps != []
    ensures RowsOfSteps(RunFrom(m, t, base, 0, left).steps) != []
  {
    assert RowsOfSteps(RunFrom(m, t, base, 0, left).steps)[0] == RunFrom(m, t, base, 0, left).steps[0].before;
  }

  predicate IsDelivery(m: Machine, t: Task, d: Delivery) {
    && d.task == t
    && if d.Duplicate? then d.row == DuplicateRow(m.now, t)
       else d.left > 0 && d.trace == RunFrom(m, t, d.base, 0, d.left)
  }

  /** Every delivery of a run is either a duplicate marker or the whole inner loop
      of its task, driven from the touches and the budget it records. */
  lemma {:induction false} DeliveriesAre(m: Machine, tasks: seq<Task>, b: Book)
    ensures var ds := Process(m, tasks, b).deliveries;
            && |ds| <= |tasks|
            && (forall i :: 0 <= i < |ds| ==> IsDelivery(m, tasks[i], ds[i]))
  {
    if tasks != [] {
      if tasks[0].eventId in b.claimed {
        DeliveriesAre(m, tasks[1..], b);
      } else if b.left > 0 {
        DeliveriesAre(m, tasks[1..], After(b, Drive(m, tasks[0], b)));
      }
    }
  }

  /** A task is driven exactly when no earlier task of the batch, and no earlier
      run, claimed its id; the batch delivers every task unless it hits its limit. */
  lemma {:induction false} FirstClaimDrives(m: Machine, tasks: seq<Task>, b: Book)
    ensures var run := Process(m, tasks, b);
            && |run.deliveries| <= |tasks|
            && (!run.limitHit ==> |run.deliveries| == |tasks|)
            && forall i :: 0 <= i < |run.deliveries| ==> (run.deliveries[i].Fresh? <==> FirstOf(tasks, i, b.claimed))
  {
    hide RunFrom, Executions, Touched;
    if tasks != [] {
      var run, t := Process(m, tasks, b), tasks[0];
      if t.eventId in b.claimed {
        FirstClaimDrives(m, tasks[1..], b);
        FirstOfNext(tasks, b.claimed);
      } else if b.left > 0 {
        FirstClaimDrives(m, tasks[1..], After(b, Drive(m, t, b)));
        FirstOfNext(tasks, b.claimed);
      }
    }
  }

  predicate FirstOf(tasks: seq<Task>, i: nat, claimed: set<string>)
    requires i < |tasks|
  {
    tasks[i].eventId !in claimed && forall j :: 0 <= j < i ==> tasks[j].eventId != tasks[i].eventId
  }

  lemma FirstOfNext(tasks: seq<Task>, claimed: set<string>)
    requires tasks != []
    ensures forall i :: 1 <= i < |tasks| ==>
              (FirstOf(tasks, i, claimed) <==> FirstOf(tasks[1..], i - 1, claimed + {tasks[0].eventId}))
    ensures tasks[0].eventId in claimed ==> claimed + {tasks[0].eventId} == claimed
  {
    forall i | 1 <= i < |tasks|
      ensures FirstOf(tasks, i, claimed) <==> FirstOf(tasks[1..], i - 1, claimed + {tasks[0].eventId})
    {
      assert forall j :: 1 <= j < i ==> tasks[j] == tasks[1..][j - 1];
    }
  }

  // ---------- lifting a property of turns to runs ----------

  /** Every row the event's turns can write satisfies `p`. */
  ghost predicate WritesOnly(m: Machine, t: Task, p: Row -> bool) {
    forall k: nat, touches: nat, r :: r in StepRows(m.turn(t, k, touches).step) ==> p(r)
  }

  lemma {:induction false} TraceWritesOnly(m: Machine, t: Task, base: nat, k: nat, left: int, p: Row -> bool)
    requires WritesOnly(m, t, p) && k <= GUARD
    ensures forall r :: r in RowsOfSteps(RunFrom(m, t, base, k, left).steps) ==> p(r)
    decreases GUARD - k
  {
    if k < GUARD && left > 0 {
      var turn := m.turn(t, k, base + k);
      assert forall r :: r in StepRows(turn.step) ==> p(r);
      if turn.next.None? {
        TraceWritesOnly(m, t, base, k + 1, left - 1, p);
        assert RunFrom(m, t, base, k, left).steps[1..] == RunFrom(m, t, base, k + 1, left - 1).steps;
      } else {
        assert RunFrom(m, t, base, k, left).steps[1..] == [];
      }
    }
  }

  /** A property of every turn's rows and of the duplicate markers holds of every
      row of every run. */
  lemma {:induction false} RunWritesOnly(m: Machine, tasks: seq<Task>, b: Book, p: Row -> bool)
    requires forall t :: t in tasks ==> WritesOnly(m, t, p) && p(DuplicateRow(m.now, t))
    ensures forall r :: r in RunRows(m, tasks, b) ==> p(r)
  {
    hide RunFrom, RunRows, WritesOnly;
    if tasks != [] {
      var t := tasks[0];
      RunRowsUnfold(m, tasks, b);
      if t.eventId in b.claimed {
        RunWritesOnly(m, tasks[1..], b, p);
      } else if b.left > 0 {
        TraceWritesOnly(m, t, b.TouchesOf(t.customerId), 0, b.left, p);
        RunWritesOnly(m, tasks[1..], After(b, Drive(m, t, b)), p);
      }
    } else {
      RunOfNothing(m, b);
    }
  }

  lemma RunOfNothing(m: Machine, b: Book)
    ensures RunRows(m, [], b) == []
  {
  }
}
