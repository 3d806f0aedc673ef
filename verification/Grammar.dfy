/** The shape of one event's rows in the log (go/rz/runner.go:102-216). */
module Grammar {
  import opened Types
  import opened Classify
  import opened Engines
  import opened Execution
  import opened Loop
  import opened Runner

  /** A touch that did not recover: scheduled, then tried. */
  predicate TouchPair(a: Row, b: Row) {
    || (a.decision.Retry? && a.state.RetryScheduled? && b.decision.Retry? && b.state.Retrying? && b.rule == a.rule)
    || (a.decision.Contact? && a.state.ContactScheduled? && b.decision.Contact? && b.state.Contacting?
        && b.rule == a.rule)
  }

  /** A touch that recovered: scheduled, then logged as recovered twice. */
  predicate RecoveredTouch(a: Row, b: Row, c: Row) {
    && ((a.decision.Retry? && a.state.RetryScheduled?) || (a.decision.Contact? && a.state.ContactScheduled?))
    && b.decision.Recover? && b.state.Recovered? && b.rule == RuleRecovered
    && c == b
  }

  /** The rows that end an event without a touch, and the state they end it in. */
  predicate Closing(rows: seq<Row>, s: AgentState) {
    match |rows|
    case 1 =>
      || (rows[0].decision.Suppress? && rows[0].state.Suppressed? && s.Suppressed?)
      || (rows[0].decision.Abandon? && rows[0].state.Abandoned? && s.Abandoned?)
      || (rows[0].decision.Recover? && rows[0].state.Recovered? && s.Recovered?)
    case 2 =>
      || (rows[0].decision.Escalate? && rows[0].state.Escalated? && rows[1].decision.Escalate?
          && rows[1].state.Escalated? && rows[1].actor.LlmCopy? && s.Escalated?)
      || (rows[0].decision.Hold? && !IsTerminalState(rows[0].state) && rows[1].decision.Hold?
          && rows[1].state.WaitingOnPtp? && s.WaitingOnPtp?)
      || (rows[0].decision.NoAction? && rows[0].state.Detected? && rows[1].decision.NoAction?
          && rows[1].state.Abandoned? && s.Abandoned?)
    case _ => false
  }

  predicate AtAttempt(rows: seq<Row>, k: nat) {
    forall i :: 0 <= i < |rows| ==> rows[i].attempt == Some(k)
  }

  /** The grammar of the rows from attempt `k` on: failed touches at consecutive
      attempts, then a recovered touch or closing rows at the next one, or a cut by
      the budget or the guard. */
  predicate Accepts(rows: seq<Row>, k: nat, end: End) {
    || (rows == [] && !end.Finished?)
    || (|rows| == 3 && AtAttempt(rows, k) && RecoveredTouch(rows[0], rows[1], rows[2]) && end == Finished(Recovered))
    || (end.Finished? && AtAttempt(rows, k) && Closing(rows, end.state))
    || (|rows| >= 2 && AtAttempt(rows[..2], k) && TouchPair(rows[0], rows[1]) && Accepts(rows[2..], k + 1, end))
  }

  lemma TurnGrammar(env: Env, t: Task, k: nat, touches: nat)
    ensures var turn := TakeTurn(env, t, k, touches);
            var rows := StepRows(turn.step);
            && AtAttempt(rows, k)
            && (turn.next.None? ==> |rows| == 2 && TouchPair(rows[0], rows[1]))
            && (turn.next.Some? && !Closing(rows, turn.next.value) ==>
                  |rows| == 3 && RecoveredTouch(rows[0], rows[1], rows[2]) && turn.next.value.Recovered?)
  {
    TurnActsOnDecision(env, t, k, touches);
    hide Decide, ExecuteAction;
  }

  lemma {:induction false} TraceGrammarFrom(env: Env, t: Task, base: nat, k: nat, left: int)
    requires k <= GUARD
    ensures var tr := RunFrom(MachineOf(env), t, base, k, left);
            Accepts(RowsOfSteps(tr.steps), k, tr.end)
    decreases GUARD - k
  {
    hide Closing, TouchPair, RecoveredTouch, AtAttempt, TakeTurn;
    if k < GUARD && left > 0 {
      TurnGrammar(env, t, k, base + k);
      var m := MachineOf(env);
      var tr, turn := RunFrom(m, t, base, k, left), TakeTurn(env, t, k, base + k);
      if turn.next.None? {
        TraceGrammarFrom(env, t, base, k + 1, left - 1);
        var rest := RunFrom(m, t, base, k + 1, left - 1);
        assert tr.steps[1..] == rest.steps;
        assert RowsOfSteps(tr.steps)[..2] == StepRows(turn.step);
        assert RowsOfSteps(tr.steps)[2..] == RowsOfSteps(rest.steps);
      } else {
        assert tr.steps[1..] == [];
        assert RowsOfSteps(tr.steps) == StepRows(turn.step);
      }
    }
  }

  /** Every event's rows follow the grammar, and the end they are accepted with is
      the end of the trace. */
  lemma TraceGrammar(env: Env, t: Task, base: nat, left: int)
    ensures var tr := RunFrom(MachineOf(env), t, base, 0, left);
            Accepts(RowsOfSteps(tr.steps), 0, tr.end)
  {
    TraceGrammarFrom(env, t, base, 0, left);
  }

  /** Once a row is in a terminal state, every later row of the event is in the
      same state. */
  lemma {:induction false} TerminalIsFinal(rows: seq<Row>, k: nat, end: End, i: nat, j: nat)
    requires Accepts(rows, k, end) && i <= j < |rows| && IsTerminalState(rows[i].state)
    ensures rows[j].state == rows[i].state
    ensures end == Finished(rows[i].state)
    decreases |rows|
  {
    if !(|rows| == 3 && AtAttempt(rows, k) && RecoveredTouch(rows[0], rows[1], rows[2]) && end == Finished(Recovered))
       && !(end.Finished? && AtAttempt(rows, k) && Closing(rows, end.state)) {
      assert i >= 2;
      TerminalIsFinal(rows[2..], k + 1, end, i - 2, j - 2);
    }
  }

  /** The last row of an event that finished shows the state it finished in. */
  lemma {:induction false} LastRowShowsTheEnd(rows: seq<Row>, k: nat, end: End)
    requires Accepts(rows, k, end) && end.Finished?
    ensures rows != [] && rows[|rows| - 1].state == end.state && RunningTerminal(end.state)
    decreases |rows|
  {
    if !(|rows| == 3 && AtAttempt(rows, k) && RecoveredTouch(rows[0], rows[1], rows[2]) && end == Finished(Recovered))
       && !(AtAttempt(rows, k) && Closing(rows, end.state)) {
      LastRowShowsTheEnd(rows[2..], k + 1, end);
      assert rows[|rows| - 1] == rows[2..][|rows| - 3];
    }
  }

  /** The last row of an event that was cut is in no running-terminal state. */
  lemma {:induction false} CutRowsStayOpen(rows: seq<Row>, k: nat, end: End)
    requires Accepts(rows, k, end) && !end.Finished?
    ensures forall i :: 0 <= i < |rows| ==> !RunningTerminal(rows[i].state)
    decreases |rows|
  {
    if rows != [] {
      CutRowsStayOpen(rows[2..], k + 1, end);
      forall i | 0 <= i < |rows| ensures !RunningTerminal(rows[i].state) {
        if i >= 2 {
          assert rows[i] == rows[2..][i - 2];
        }
      }
    }
  }

  // ---------- the same, read off the whole log of a batch ----------

  /** The non-duplicate rows of an event. */
  function EventRow(id: string): Row -> bool { (r: Row) => r.eventId == id && !IsDuplicate(r) }

  lemma EventRowsOfTrace(m: Machine, t: Task, base: nat, left: int, id: string)
    requires WellFormed(m)
    ensures var rows := RowsOfSteps(RunFrom(m, t, base, 0, left).steps);
            Filter(rows, EventRow(id)) == if t.eventId == id then rows else []
  {
    hide WellFormed, RunFrom;
    var rows := RowsOfSteps(RunFrom(m, t, base, 0, left).steps);
    TraceRows(m, t, base, 0, left);
    if t.eventId == id {
      FilterAll(rows, EventRow(id));
    } else {
      FilterNone(rows, EventRow(id));
    }
  }

  /** In the rows of a run, an event's non-duplicate rows are exactly the rows of
      the one delivery that drove it; an event claimed before has none. */
  lemma {:induction false} EventRowsAreItsTrace(m: Machine, tasks: seq<Task>, b: Book, i: nat)
    requires WellFormed(m) && i < |Process(m, tasks, b).deliveries| && Process(m, tasks, b).deliveries[i].Fresh?
    ensures var d := Process(m, tasks, b).deliveries[i];
            && d.task.eventId !in b.claimed
            && Filter(RunRows(m, tasks, b), EventRow(d.task.eventId)) == RowsOfSteps(d.trace.steps)
  {
    hide WellFormed, RunRows, RowsOfSteps, RunFrom, EventRow, Touched, Executions, Filter;
    var t, id := tasks[0], Process(m, tasks, b).deliveries[i].task.eventId;
    RunRowsUnfold(m, tasks, b);
    if t.eventId in b.claimed {
      EventRowsAreItsTrace(m, tasks[1..], b, i - 1);
      EventRowsSkipDuplicate(m, t, RunRows(m, tasks[1..], b), id);
    } else {
      var d := Drive(m, t, b);
      if i == 0 {
        ClaimedIdHasNoRows(m, tasks[1..], After(b, d), id);
      } else {
        EventRowsAreItsTrace(m, tasks[1..], After(b, d), i - 1);
      }
      EventRowsAfterTrace(m, t, b.TouchesOf(t.customerId), b.left, RunRows(m, tasks[1..], After(b, d)), id);
    }
  }

  lemma {:induction false} ClaimedIdHasNoRows(m: Machine, tasks: seq<Task>, b: Book, id: string)
    requires WellFormed(m) && id in b.claimed
    ensures Filter(RunRows(m, tasks, b), EventRow(id)) == []
  {
    hide WellFormed, RunRows, RowsOfSteps, RunFrom, EventRow, Touched, Executions;
    if tasks != [] {
      var t := tasks[0];
      RunRowsUnfold(m, tasks, b);
      if t.eventId in b.claimed {
        ClaimedIdHasNoRows(m, tasks[1..], b, id);
        EventRowsSkipDuplicate(m, t, RunRows(m, tasks[1..], b), id);
      } else if b.left > 0 {
        var d := Drive(m, t, b);
        ClaimedIdHasNoRows(m, tasks[1..], After(b, d), id);
        EventRowsAfterTrace(m, t, b.TouchesOf(t.customerId), b.left, RunRows(m, tasks[1..], After(b, d)), id);
      }
    } else {
      RunOfNothing(m, b);
    }
  }

  lemma EventRowsAfterTrace(m: Machine, t: Task, base: nat, left: int, rest: seq<Row>, id: string)
    requires WellFormed(m)
    requires t.eventId == id ==> Filter(rest, EventRow(id)) == []
    ensures var rows := RowsOfSteps(RunFrom(m, t, base, 0, left).steps);
            Filter(rows + rest, EventRow(id)) == if t.eventId == id then rows else Filter(rest, EventRow(id))
  {
    hide WellFormed, RunFrom, RowsOfSteps, Filter, EventRow;
    var rows := RowsOfSteps(RunFrom(m, t, base, 0, left).steps);
    EventRowsOfTrace(m, t, base, left, id);
    FilterConcat(rows, rest, EventRow(id));
    assert rows + [] == rows && [] + Filter(rest, EventRow(id)) == Filter(rest, EventRow(id));
  }

  lemma EventRowsSkipDuplicate(m: Machine, t: Task, rest: seq<Row>, id: string)
    ensures Filter([DuplicateRow(m.now, t)] + rest, EventRow(id)) == Filter(rest, EventRow(id))
  {
    assert ([DuplicateRow(m.now, t)] + rest)[1..] == rest;
  }

  /** Hence, in the log of any batch, every driven event's non-duplicate rows
      follow the grammar. */
  lemma BatchGrammar(env: Env, tasks: seq<Task>, b: Book, i: nat)
    requires i < |Process(MachineOf(env), tasks, b).deliveries|
    requires Process(MachineOf(env), tasks, b).deliveries[i].Fresh?
    ensures var d := Process(MachineOf(env), tasks, b).deliveries[i];
            Accepts(Filter(RunRows(MachineOf(env), tasks, b), EventRow(d.task.eventId)), 0, d.trace.end)
  {
    hide Accepts, RunRows, Process, MachineOf, RunFrom, Filter, EventRow;
    var m := MachineOf(env);
    var d := Process(m, tasks, b).deliveries[i];
    MachineIsWellFormed(env);
    EventRowsAreItsTrace(m, tasks, b, i);
    DeliveriesAre(m, tasks, b);
    assert IsDelivery(m, tasks[i], d);
    TraceGrammar(env, tasks[i], d.base, d.left);
  }
}
