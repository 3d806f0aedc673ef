/** `RunBatch` as the source runs it (go/rz/runner.go:34-242): nested loops over
    mutable counters and the audit store, proved against `Loop.Process`. */
module Orchestrator {
  import opened Types
  import opened Classify
  import opened Rules
  import opened Engines
  import opened Execution
  import opened Loop
  import opened Runner
  import opened Store
  import opened Chain

  datatype BatchResult = BatchResult(auditEntries: seq<Entry>, escapes: seq<Escape>, batchAttemptLimitHit: bool)

  /** The batch budget: an override, or 60 events' worth of retries. */
  function MaxBatch(p: Tunables, override: Option<int>): int {
    if override.Some? then override.value else MaxBatchAttempts(p)
  }

  /** The row that decides on a touch of the event at the attempt. */
  predicate DecidesTouch(r: Row, t: Task, attempt: nat) {
    r.eventId == t.eventId && r.attempt == Some(attempt) && r.decision in {Retry, Contact}
  }

  /** A touch can be executed only when the log ends with its own decision row. */
  method ExecuteTouch(audit: AuditStore, draw: Draw, t: Task, attempt: nat) returns (res: Result)
    requires !t.flow.OtherFlow?
    requires audit.file != [] && DecidesTouch(audit.file[|audit.file| - 1].row, t, attempt)
    ensures res == ExecuteAction(draw, t, attempt)
  {
    res := ExecuteAction(draw, t, attempt);
  }

  lemma LastAppended(c: Crypto, log: seq<Entry>, e: Row)
    ensures var out := Appended(c, log, e);
            out != [] && out[|out| - 1].row == e
  {
  }

  /** Acting on a decision: append the decision row, then execute and append the
      rest. The action runs only once its decision row is in the log. */
  method Perform(audit: AuditStore, env: Env, t: Task, attempt: nat, d: RuleDecision)
    returns (state: AgentState, executed: bool)
    requires audit.Valid()
    requires d.decision in {Retry, Contact} ==> !t.flow.OtherFlow?
    modifies audit`file
    ensures audit.Valid()
    ensures var turn := ActOn(env, t, attempt, d);
            && audit.file == AppendedAll(audit.crypto, old(audit.file), StepRows(turn.step))
            && executed == turn.step.executed
            && if turn.next.Some? then state == turn.next.value else !RunningTerminal(state)
  {
    hide Appended;
    var entry := DecisionRow(env.clock.now, t, d, attempt);
    ghost var before := audit.file;
    AppendedOneMore(audit.crypto, before, [], entry);
    audit.Append(entry);
    state, executed := entry.state, false;
    match d.decision {
      case Escalate =>
        var llm := entry.(rule := RuleNoOp, actor := LlmCopy);
        AppendedOneMore(audit.crypto, before, [entry], llm);
        audit.Append(llm);
        state := Escalated;
      case Hold =>
        var hold := entry.(state := WaitingOnPtp);
        AppendedOneMore(audit.crypto, before, [entry], hold);
        audit.Append(hold);
        state := WaitingOnPtp;
      case NoAction =>
        var none := entry.(state := Abandoned);
        AppendedOneMore(audit.crypto, before, [entry], none);
        audit.Append(none);
        state := Abandoned;
      case Suppress =>
      case Abandon =>
      case Recover =>
      case _ =>
        LastAppended(audit.crypto, before, entry);
        var res := ExecuteTouch(audit, env.draw, t, attempt);
        executed := true;
        var action := ActionRow(entry, res);
        AppendedOneMore(audit.crypto, before, [entry], action);
        audit.Append(action);
        if res.recovered {
          AppendedOneMore(audit.crypto, before, [entry, action], action);
          audit.Append(action);
          state := Recovered;
        }
    }
  }

  /** One turn of the inner loop, after its budget check. */
  method DriveTurn(audit: AuditStore, env: Env, t: Task, attempt: nat, touches: Touches)
    returns (state: AgentState, executed: bool, ghost turn: Turn)
    requires audit.Valid()
    modifies audit`file
    ensures audit.Valid()
    ensures turn == MachineOf(env).turn(t, attempt, Seen(touches, t.customerId))
    ensures audit.file == AppendedAll(audit.crypto, old(audit.file), StepRows(turn.step))
    ensures executed == turn.step.executed
    ensures if turn.next.Some? then state == turn.next.value else !RunningTerminal(state)
  {
    hide Decide, ActOn, MachineOf, StepRows, AppendedAll, Seen;
    var d := Decide(env.tun, env.clock, t, attempt, Seen(touches, t.customerId));
    TurnActsOnDecision(env, t, attempt, Seen(touches, t.customerId));
    turn := ActOn(env, t, attempt, d);
    state, executed := Perform(audit, env, t, attempt, d);
  }

  /** The body of the inner loop, after its budget check. */
  method DriveOnce(audit: AuditStore, env: Env, ghost drive: DriveSpec, t: Task, attempt0: nat, touches0: Touches,
                   ghost guard: nat, ghost state0: AgentState, ghost steps0: seq<Step>)
    returns (state: AgentState, attempt: nat, touches: Touches, ghost steps: seq<Step>)
    requires audit.Valid() && drive.From(audit, env, t)
    requires drive.Reached(steps0, state0, attempt0, guard, touches0, audit.file) && !RunningTerminal(state0)
    requires guard < GUARD && |steps0| < drive.left
    modifies audit`file
    ensures audit.Valid()
    ensures |steps| == |steps0| + 1
    ensures drive.Reached(steps, state, attempt, guard + 1, touches, audit.file)
  {
    hide MachineOf, DriveSpec.Reached, WellFormed, Bump, Seen, StepRows, AppendedAll;
    MachineIsWellFormed(env);
    var executed;
    ghost var turn;
    state, executed, turn := DriveTurn(audit, env, t, attempt0, touches0);
    DriveAdvances(drive, steps0, state0, attempt0, guard, touches0, old(audit.file), turn, state, audit.file);
    attempt, touches := attempt0, touches0;
    if executed {
      touches := Bump(touches, t.customerId);
      attempt := attempt + 1;
    }
    steps := steps0 + [turn.step];
  }

  /** The inner loop over one claimed event. */
  method DriveEvent(audit: AuditStore, env: Env, t: Task, used0: int, maxBatch: int, touches0: Touches)
    returns (used: int, touches: Touches, limitHit: bool, escalated: bool)
    requires audit.Valid()
    modifies audit`file
    ensures audit.Valid()
    ensures DriveFrom(MachineOf(env), t, touches0, maxBatch - used0, audit.crypto, old(audit.file))
            .Done(used - used0, touches, limitHit, escalated, audit.file)
  {
    hide Seen, DriveSpec.Reached, DriveSpec.Done, MachineOf;
    ghost var drive := DriveFrom(MachineOf(env), t, touches0, maxBatch - used0, audit.crypto, audit.file);
    used, touches, limitHit := used0, touches0, false;
    var attempt, state, guard := 0, Detected, 0;
    ghost var steps: seq<Step> := [];
    DriveStarts(drive);
    while !RunningTerminal(state) && guard < 100
      invariant audit.Valid() && 0 <= guard <= 100 && 0 <= attempt && !limitHit
      invariant used == used0 + |steps|
      invariant drive.Reached(steps, state, attempt, guard, touches, audit.file)
    {
      guard := guard + 1;
      if used >= maxBatch {
        limitHit := true;
        break;
      }
      used := used + 1;
      state, attempt, touches, steps := DriveOnce(audit, env, drive, t, attempt, touches, guard - 1, state, steps);
    }
    DriveEnds(drive, steps, state, attempt, if limitHit then guard - 1 else guard, touches, audit.file);
    escalated := state == Escalated;
  }

  function DriveFrom(m: Machine, t: Task, touches: Touches, left: int, c: Crypto, log: seq<Entry>): DriveSpec {
    DriveSpec(m, t, Seen(touches, t.customerId), touches, left, c, log)
  }

  function Bump(touches: Touches, customer: string): Touches {
    Touches(touches.counts[customer := Seen(touches, customer) + 1])
  }

  lemma TouchedNext(touches: Touches, customer: string, n: nat)
    ensures Seen(Touched(touches, customer, n), customer) == Seen(touches, customer) + n
    ensures Bump(Touched(touches, customer, n), customer) == Touched(touches, customer, n + 1)
  {
  }

  /** Where the inner loop started. */
  datatype DriveSpec = DriveSpec(
    m: Machine, t: Task, base: nat, touches: Touches, left: int, crypto: Crypto, log: seq<Entry>)
  {
    ghost predicate From(audit: AuditStore, env: Env, t: Task) {
      m == MachineOf(env) && this.t == t && crypto == audit.crypto && base == Seen(touches, t.customerId)
    }

    /** The store and the counters are what the whole trace makes of them. */
    ghost predicate Done(steps: int, now: Touches, cut: bool, escalated: bool, file: seq<Entry>) {
      var trace := RunFrom(m, t, base, 0, left);
      && steps == |trace.steps|
      && now == Touched(touches, t.customerId, Executions(trace.steps))
      && cut == trace.end.BudgetCut? && escalated == (trace.end == Finished(Escalated))
      && file == AppendedAll(crypto, log, RowsOfSteps(trace.steps))
    }

    /** The loop variables agree with the part of the trace taken so far. */
    ghost predicate Reached(steps: seq<Step>, state: AgentState, attempt: nat, guard: nat, now: Touches,
                            file: seq<Entry>) {
      && guard <= GUARD && attempt == Executions(steps)
      && now == Touched(touches, t.customerId, attempt)
      && file == AppendedAll(crypto, log, RowsOfSteps(steps))
      && var trace := RunFrom(m, t, base, 0, left);
         if RunningTerminal(state) then trace == Trace(steps, Finished(state))
         else
           var rest := RunFrom(m, t, base, guard, left - |steps|);
           attempt == guard && trace == Trace(steps + rest.steps, rest.end)
    }
  }

  lemma DriveStarts(d: DriveSpec)
    requires d.base == Seen(d.touches, d.t.customerId)
    ensures d.Reached([], Detected, 0, 0, d.touches, d.log)
  {
    var trace := RunFrom(d.m, d.t, d.base, 0, d.left);
    assert [] + trace.steps == trace.steps;
  }

  lemma DriveAdvances(d: DriveSpec, steps: seq<Step>, state: AgentState, attempt: nat, guard: nat, now: Touches,
                      file: seq<Entry>, turn: Turn, state': AgentState, file': seq<Entry>)
    requires WellFormed(d.m) && d.base == Seen(d.touches, d.t.customerId)
    requires d.Reached(steps, state, attempt, guard, now, file) && !RunningTerminal(state)
    requires guard < GUARD && |steps| < d.left
    requires turn == d.m.turn(d.t, attempt, Seen(now, d.t.customerId))
    requires file' == AppendedAll(d.crypto, file, StepRows(turn.step))
    requires if turn.next.Some? then state' == turn.next.value else !RunningTerminal(state')
    ensures var now' := if turn.step.executed then Bump(now, d.t.customerId) else now;
            d.Reached(steps + [turn.step], state', attempt + (if turn.step.executed then 1 else 0), guard + 1, now',
                      file')
  {
    hide Touched, Seen, Bump, RunFrom, AppendedAll, RowsOfSteps, StepRows, WellFormed;
    TouchedNext(d.touches, d.t.customerId, attempt);
    WellFormedTurnEnds(d.m, d.t, attempt, Seen(now, d.t.customerId));
    AppendStepRows(d, steps, turn.step, file, file');
    RestAdvances(d.m, d.t, d.base, guard, d.left - |steps|, steps);
  }

  lemma WellFormedTurnEnds(m: Machine, t: Task, k: nat, touches: nat)
    requires WellFormed(m)
    ensures var turn := m.turn(t, k, touches);
            if turn.next.None? then turn.step.executed else RunningTerminal(turn.next.value)
  {
    assert WellFormedTurn(m.now, t, k, m.turn(t, k, touches));
  }

  lemma RestAdvances(m: Machine, t: Task, base: nat, k: nat, left: int, steps: seq<Step>)
    requires k < GUARD && left > 0
    ensures var turn, rest := m.turn(t, k, base + k), RunFrom(m, t, base, k, left);
            if turn.next.Some? then steps + rest.steps == steps + [turn.step] && rest.end == Finished(turn.next.value)
            else
              var after := RunFrom(m, t, base, k + 1, left - 1);
              steps + rest.steps == (steps + [turn.step]) + after.steps && rest.end == after.end
  {
    var turn := m.turn(t, k, base + k);
    if turn.next.None? {
      var after := RunFrom(m, t, base, k + 1, left - 1);
      assert steps + ([turn.step] + after.steps) == (steps + [turn.step]) + after.steps;
    }
  }

  lemma AppendStepRows(d: DriveSpec, steps: seq<Step>, s: Step, file: seq<Entry>, file': seq<Entry>)
    requires file == AppendedAll(d.crypto, d.log, RowsOfSteps(steps))
    requires file' == AppendedAll(d.crypto, file, StepRows(s))
    ensures file' == AppendedAll(d.crypto, d.log, RowsOfSteps(steps + [s]))
    ensures Executions(steps + [s]) == Executions(steps) + (if s.executed then 1 else 0)
  {
    RowsOfStepsConcat(steps, [s]);
    assert RowsOfSteps([s]) == StepRows(s);
    AppendedAllConcat(d.crypto, d.log, RowsOfSteps(steps), StepRows(s));
  }

  lemma DriveEnds(d: DriveSpec, steps: seq<Step>, state: AgentState, attempt: nat, guard: nat, now: Touches,
                  file: seq<Entry>)
    requires d.Reached(steps, state, attempt, guard, now, file)
    requires RunningTerminal(state) || guard == GUARD || |steps| >= d.left
    ensures d.Done(|steps|, now, !RunningTerminal(state) && guard < GUARD, state == Escalated, file)
  {
    assert steps + [] == steps;
  }

  /** What a batch does to the store is exactly what `Process` says, and nothing
      else. */
  method RunBatch(events: seq<Event>, audit: AuditStore, env: Env, override: Option<int>) returns (result: BatchResult)
    requires audit.Valid()
    modifies audit
    ensures audit.Valid()
    ensures var budget := if override.Some? then override.value else 60 * env.tun.maxRetryAttempts;
            var run := Process(MachineOf(env), PrepareAll(events), Opening(old(audit.Horizon()), budget));
            && audit.file == AppendedAll(audit.crypto, old(audit.file), RowsOfDeliveries(run.deliveries))
            && audit.Horizon() == run.book.claimed
            && result == BatchResult(audit.file, Escapes(run.deliveries), run.limitHit)
    ensures events != [] ==> audit.hydrated
  {
    hide BatchSpec.Reached, Process, MachineOf, Prepare, PrepareAll, RowsOfDeliveries, AppendedAll, Escapes;
    var limitHit, maxBatch := false, MaxBatchAttempts(env.tun);
    if override.Some? {
      maxBatch := override.value;
    }
    var used := 0;
    var touches := Touches(map[]);
    var escapes: seq<Escape> := [];
    ghost var spec := BatchSpec(MachineOf(env), PrepareAll(events), Opening(audit.Horizon(), maxBatch), audit.crypto,
                                audit.file);
    BatchStarts(spec);
    var i, stopped := 0, false;
    while i < |events| && !stopped
      invariant audit.Valid() && 0 <= i <= |events|
      invariant i > 0 ==> audit.hydrated
      invariant stopped ==> i < |events| && audit.hydrated
      invariant spec.Reached(i, stopped, Book(audit.Horizon(), touches, maxBatch - used), escapes, limitHit, audit.file)
      decreases |events| - i, !stopped
    {
      used, touches, escapes, limitHit, stopped :=
        Deliver(audit, env, spec, Prepare(events[i]), i, used, maxBatch, touches, escapes, limitHit);
      if !stopped {
        i := i + 1;
      }
    }
    BatchEnds(spec, i, stopped, Book(audit.Horizon(), touches, maxBatch - used), escapes, limitHit, audit.file);
    var all := audit.All();
    result := BatchResult(all, escapes, limitHit);
  }

  /** The body of the outer loop: one delivery, or the stop that an exhausted
      budget forces (the source's `break`). */
  method Deliver(audit: AuditStore, env: Env, ghost spec: BatchSpec, t: Task, ghost i: nat, used0: int, maxBatch: int,
                 touches0: Touches, escapes0: seq<Escape>, limitHit0: bool)
    returns (used: int, touches: Touches, escapes: seq<Escape>, limitHit: bool, stopped: bool)
    requires audit.Valid() && i < |spec.tasks| && t == spec.tasks[i]
    requires spec.m == MachineOf(env) && spec.crypto == audit.crypto
    requires spec.Reached(i, false, Book(audit.Horizon(), touches0, maxBatch - used0), escapes0, limitHit0, audit.file)
    modifies audit
    ensures audit.Valid() && audit.hydrated
    ensures spec.Reached(if stopped then i else i + 1, stopped, Book(audit.Horizon(), touches, maxBatch - used),
                         escapes, limitHit, audit.file)
  {
    hide BatchSpec.Reached, DriveSpec.Done, MachineOf, DriveFrom, Appended;
    MachineTime(env);
    ghost var b := Book(audit.Horizon(), touches0, maxBatch - used0);
    used, touches, escapes, limitHit, stopped := used0, touches0, escapes0, limitHit0, false;
    ghost var file := audit.file;
    var firstSeen := audit.Claim(t.eventId);
    if !firstSeen {
      audit.Append(DuplicateRow(env.clock.now, t));
      assert audit.Horizon() == b.claimed;
      BatchSkips(spec, i, b, escapes0, limitHit0, file);
    } else if used >= maxBatch {
      limitHit := true;
      stopped := true;
      BatchStops(spec, i, b, escapes0, limitHit0, file);
    } else {
      var cut, escalated;
      used, touches, cut, escalated := DriveEvent(audit, env, t, used, maxBatch, touches);
      limitHit := limitHit || cut;
      if escalated {
        escapes := escapes + [EscapeOf(t)];
      }
      BatchDrives(spec, i, b, escapes0, limitHit0, file, used - used0, touches, cut, escalated, audit.file);
    }
  }

  /** Where the outer loop started. */
  datatype BatchSpec = BatchSpec(m: Machine, tasks: seq<Task>, opening: Book, crypto: Crypto, log: seq<Entry>) {
    /** The loop variables agree with the part of the run delivered so far: what
        remains is the run of the remaining tasks from book `b`, unless stopped. */
    ghost predicate Reached(i: nat, stopped: bool, b: Book, escapes: seq<Escape>, limitHit: bool, file: seq<Entry>) {
      i <= |tasks| && exists done: seq<Delivery> :: ReachedBy(done, i, stopped, b, escapes, limitHit, file)
    }

    ghost predicate ReachedBy(done: seq<Delivery>, i: nat, stopped: bool, b: Book, escapes: seq<Escape>,
                              limitHit: bool, file: seq<Entry>)
      requires i <= |tasks|
    {
      && escapes == Escapes(done)
      && file == AppendedAll(crypto, log, RowsOfDeliveries(done))
      && if stopped then Process(m, tasks, opening) == Run(done, b, limitHit)
        else Resumes(m, tasks, opening, i, b, done, limitHit)
    }
  }

  lemma BatchStarts(s: BatchSpec)
    ensures s.Reached(0, false, s.opening, [], false, s.log)
  {
    var run := Process(s.m, s.tasks, s.opening);
    assert s.tasks[0..] == s.tasks && [] + run.deliveries == run.deliveries;
    assert s.ReachedBy([], 0, false, s.opening, [], false, s.log);
  }

  lemma BatchEnds(s: BatchSpec, i: nat, stopped: bool, b: Book, escapes: seq<Escape>, limitHit: bool, file: seq<Entry>)
    requires s.Reached(i, stopped, b, escapes, limitHit, file)
    requires stopped || i == |s.tasks|
    ensures var run := Process(s.m, s.tasks, s.opening);
            && file == AppendedAll(s.crypto, s.log, RowsOfDeliveries(run.deliveries))
            && escapes == Escapes(run.deliveries) && run.book == b && run.limitHit == limitHit
  {
    var done :| s.ReachedBy(done, i, stopped, b, escapes, limitHit, file);
    if !stopped {
      ResumesEnd(s.m, s.tasks, s.opening, b, done, limitHit);
    }
  }

  lemma BatchSkips(s: BatchSpec, i: nat, b: Book, escapes: seq<Escape>, limitHit: bool, file: seq<Entry>)
    requires i < |s.tasks| && s.Reached(i, false, b, escapes, limitHit, file) && s.tasks[i].eventId in b.claimed
    ensures s.Reached(i + 1, false, b, escapes, limitHit, Appended(s.crypto, file, DuplicateRow(s.m.now, s.tasks[i])))
  {
    hide Process, Resumes, RowsOfDeliveries, Escapes, AppendedAll, Appended;
    var done :| s.ReachedBy(done, i, false, b, escapes, limitHit, file);
    var dup := DuplicateRow(s.m.now, s.tasks[i]);
    var d := Duplicate(s.tasks[i], dup);
    ResumesNext(s.m, s.tasks, s.opening, i, b, done, limitHit);
    DeliveredOne(s.crypto, s.log, done, d, [dup]);
    AppendedOneMore(s.crypto, s.log, RowsOfDeliveries(done), dup);
    assert s.ReachedBy(done + [d], i + 1, false, b, escapes, limitHit, Appended(s.crypto, file, dup));
  }

  lemma BatchStops(s: BatchSpec, i: nat, b: Book, escapes: seq<Escape>, limitHit: bool, file: seq<Entry>)
    requires i < |s.tasks| && s.Reached(i, false, b, escapes, limitHit, file)
    requires s.tasks[i].eventId !in b.claimed && b.left <= 0
    ensures s.Reached(i, true, b.(claimed := b.claimed + {s.tasks[i].eventId}), escapes, true, file)
  {
    var done :| s.ReachedBy(done, i, false, b, escapes, limitHit, file);
    ResumesNext(s.m, s.tasks, s.opening, i, b, done, limitHit);
    assert s.ReachedBy(done, i, true, b.(claimed := b.claimed + {s.tasks[i].eventId}), escapes, true, file);
  }

  lemma BatchDrives(s: BatchSpec, i: nat, b: Book, escapes: seq<Escape>, limitHit: bool, file: seq<Entry>,
                    steps: int, touches: Touches, cut: bool, escalated: bool, file': seq<Entry>)
    requires i < |s.tasks| && s.Reached(i, false, b, escapes, limitHit, file)
    requires s.tasks[i].eventId !in b.claimed && b.left > 0
    requires DriveFrom(s.m, s.tasks[i], b.touches, b.left, s.crypto, file).Done(steps, touches, cut, escalated, file')
    ensures s.Reached(i + 1, false, Book(b.claimed + {s.tasks[i].eventId}, touches, b.left - steps),
                      if escalated then escapes + [EscapeOf(s.tasks[i])] else escapes, limitHit || cut, file')
  {
    var done :| s.ReachedBy(done, i, false, b, escapes, limitHit, file);
    var d := Drive(s.m, s.tasks[i], b);
    assert file' == AppendedAll(s.crypto, file, RowsOfSteps(d.trace.steps));
    assert After(b, d) == Book(b.claimed + {s.tasks[i].eventId}, touches, b.left - steps);
    assert cut == d.trace.end.BudgetCut? && escalated == (d.trace.end == Finished(Escalated));
    BatchAdds(s, i, b, escapes, limitHit, file, done);
  }

  lemma BatchAdds(s: BatchSpec, i: nat, b: Book, escapes: seq<Escape>, limitHit: bool, file: seq<Entry>,
                  done: seq<Delivery>)
    requires i < |s.tasks| && s.ReachedBy(done, i, false, b, escapes, limitHit, file)
    requires s.tasks[i].eventId !in b.claimed && b.left > 0
    ensures var d := Drive(s.m, s.tasks[i], b);
            s.ReachedBy(done + [d], i + 1, false, After(b, d),
                        if d.trace.end == Finished(Escalated) then escapes + [EscapeOf(d.task)] else escapes,
                        limitHit || d.trace.end.BudgetCut?, AppendedAll(s.crypto, file, RowsOfSteps(d.trace.steps)))
  {
    var d := Drive(s.m, s.tasks[i], b);
    ResumesNext(s.m, s.tasks, s.opening, i, b, done, limitHit);
    DeliveredOne(s.crypto, s.log, done, d, RowsOfSteps(d.trace.steps));
    hide Process, Resumes, RowsOfDeliveries, Escapes, AppendedAll, RowsOfSteps, RunFrom, Executions, Touched;
  }

  lemma DeliveredOne(c: Crypto, log: seq<Entry>, done: seq<Delivery>, d: Delivery, rows: seq<Row>)
    requires DeliveryRows(d) == rows
    ensures AppendedAll(c, log, RowsOfDeliveries(done + [d]))
            == AppendedAll(c, AppendedAll(c, log, RowsOfDeliveries(done)), rows)
    ensures RowsOfDeliveries(done + [d]) == RowsOfDeliveries(done) + rows
    ensures Escapes(done + [d]) ==
            Escapes(done) + (if d.Fresh? && d.trace.end == Finished(Escalated) then [EscapeOf(d.task)] else [])
  {
    RowsOfDeliveriesConcat(done, [d]);
    EscapesConcat(done, [d]);
    assert RowsOfDeliveries([d]) == rows;
    assert Escapes([d]) == if d.Fresh? && d.trace.end == Finished(Escalated) then [EscapeOf(d.task)] else [];
    AppendedAllConcat(c, log, RowsOfDeliveries(done), rows);
  }

  /** The run from `opening` is what has been done up to task `i`, followed by the
      run of the remaining tasks from book `b`. */
  ghost predicate Resumes(m: Machine, tasks: seq<Task>, opening: Book, i: nat, b: Book, done: seq<Delivery>,
                          limitHit: bool)
    requires i <= |tasks|
  {
    var rest := Process(m, tasks[i..], b);
    Process(m, tasks, opening) == Run(done + rest.deliveries, rest.book, limitHit || rest.limitHit)
  }

  lemma ResumesEnd(m: Machine, tasks: seq<Task>, opening: Book, b: Book, done: seq<Delivery>, limitHit: bool)
    requires Resumes(m, tasks, opening, |tasks|, b, done, limitHit)
    ensures Process(m, tasks, opening) == Run(done, b, limitHit)
  {
    assert done + [] == done;
  }

  lemma ResumesNext(m: Machine, tasks: seq<Task>, opening: Book, i: nat, b: Book, done: seq<Delivery>, limitHit: bool)
    requires i < |tasks| && Resumes(m, tasks, opening, i, b, done, limitHit)
    ensures tasks[i].eventId in b.claimed ==>
              Resumes(m, tasks, opening, i + 1, b, done + [Duplicate(tasks[i], DuplicateRow(m.now, tasks[i]))],
                      limitHit)
    ensures tasks[i].eventId !in b.claimed && b.left <= 0 ==>
              Process(m, tasks, opening) == Run(done, b.(claimed := b.claimed + {tasks[i].eventId}), true)
    ensures tasks[i].eventId !in b.claimed && b.left > 0 ==>
              var d := Drive(m, tasks[i], b);
              Resumes(m, tasks, opening, i + 1, After(b, d), done + [d], limitHit || d.trace.end.BudgetCut?)
  {
    var t := tasks[i];
    assert tasks[i..][0] == t && tasks[i..][1..] == tasks[i + 1..];
    hide Drive, RunFrom, After;
    if t.eventId in b.claimed {
      var rest := Process(m, tasks[i + 1..], b);
      var d := Duplicate(t, DuplicateRow(m.now, t));
      assert done + ([d] + rest.deliveries) == (done + [d]) + rest.deliveries;
    } else if b.left <= 0 {
      assert done + [] == done;
    } else {
      var d := Drive(m, t, b);
      var rest := Process(m, tasks[i + 1..], After(b, d));
      assert done + ([d] + rest.deliveries) == (done + [d]) + rest.deliveries;
    }
  }
}
