/** Many workers running the batch loop on one store handle, with crashes and
    reopenings between any two store operations (go/rz/store.go:39-111,
    go/rz/runner.go:49-217). A worker's own state is sequential and deterministic,
    so once it has won the claim of an event, what it will do for that event is a
    fixed script; workers interleave between any two actions of their scripts. */
module Protocol {
  import opened Types
  import opened Classify
  import opened Loop
  import opened Runner
  import opened Chain
  import opened Store
  import opened Grammar

  // ---------- scripts ----------

  /** An atomic action: one append under the store's lock, or one real touch. */
  datatype Action = Write(row: Row) | Touch(attempt: nat)

  function WriteAll(rows: seq<Row>): (actions: seq<Action>)
    ensures |actions| == |rows|
  {
    seq(|rows|, i requires 0 <= i < |rows| => Write(rows[i]))
  }

  /** The decision row is appended before its touch is executed. */
  function StepScript(s: Step): seq<Action> {
    [Write(s.before)] + (if s.executed then [Touch(s.attempt)] else []) + WriteAll(s.after)
  }

  function Script(steps: seq<Step>): seq<Action> {
    if steps == [] then [] else StepScript(steps[0]) + Script(steps[1..])
  }

  /** The rows a list of actions appends. */
  function Written(actions: seq<Action>): seq<Row> {
    if actions == [] then [] else (if actions[0].Write? then [actions[0].row] else []) + Written(actions[1..])
  }

  /** The attempts a list of actions executes. */
  function Attempts(actions: seq<Action>): seq<nat> {
    if actions == [] then [] else (if actions[0].Touch? then [actions[0].attempt] else []) + Attempts(actions[1..])
  }

  // ---------- the system ----------

  /** A claim that was won: the event, the touches and budget its worker drives it
      with, and how many actions of its script have been performed. */
  datatype Win = Win(env: Env, task: Task, base: nat, left: int, done: nat) {
    function Trace(): Trace { RunFrom(MachineOf(env), task, base, 0, left) }

    function Plan(): seq<Action> { Script(Trace().steps) }

    function Id(): string { task.eventId }
  }

  datatype Phase = Ready | Marking(task: Task) | Driving(ticket: nat)

  /** A worker: its own touch counters, remaining budget and remaining batch. */
  datatype Worker = Worker(env: Env, todo: seq<Task>, touches: Touches, left: int, phase: Phase)

  /** The log survives crashes; the claims, the hydration flag and the workers do
      not. `wins` is the history of claims. */
  datatype System = System(log: seq<Entry>, claimed: set<string>, hydrated: bool, workers: seq<Worker>,
                           wins: seq<Win>) {
    function Horizon(): set<string> { if hydrated then claimed else claimed + LoggedIds(log) }
  }

  datatype Op = Start(env: Env, batch: seq<Task>, maxBatch: int) | Go(worker: nat) | Abort(worker: nat) | Crash

  function Opened(log: seq<Entry>): System {
    System(log, {}, false, [], [])
  }

  /** A worker claims its next event: one critical section. */
  function Claim(s: System, w: nat): System
    requires w < |s.workers| && s.workers[w].todo != []
  {
    var k := s.workers[w];
    var t := k.todo[0];
    var rest := k.(todo := k.todo[1..]);
    var horizon := s.Horizon();
    if t.eventId in horizon then
      s.(hydrated := true, claimed := horizon, workers := s.workers[w := rest.(phase := Marking(t))])
    else if k.left <= 0 then
      s.(hydrated := true, claimed := horizon + {t.eventId}, workers := s.workers[w := k.(todo := [])])
    else
      s.(hydrated := true, claimed := horizon + {t.eventId},
         workers := s.workers[w := rest.(phase := Driving(|s.wins|))],
         wins := s.wins + [Win(k.env, t, Seen(k.touches, t.customerId), k.left, 0)])
  }

  /** A worker performs the next action of the event it drives, or is done with it. */
  function Act(c: Crypto, s: System, w: nat, ticket: nat): System
    requires w < |s.workers| && ticket < |s.wins|
  {
    var k, win := s.workers[w], s.wins[ticket];
    if win.done < |win.Plan()| then
      var s' := s.(wins := s.wins[ticket := win.(done := win.done + 1)]);
      match win.Plan()[win.done]
      case Write(row) => s'.(log := Appended(c, s.log, row))
      case Touch(_) => s'
    else
      s.(workers := s.workers[w := k.(
        phase := Ready,
        touches := Touched(k.touches, win.task.customerId, Executions(win.Trace().steps)),
        left := k.left - |win.Trace().steps|)])
  }

  function Step(c: Crypto, s: System, w: nat): System
    requires w < |s.workers|
  {
    var k := s.workers[w];
    match k.phase
    case Ready => if k.todo == [] then s else Claim(s, w)
    case Marking(t) =>
      s.(log := Appended(c, s.log, DuplicateRow(k.env.clock.now, t)), workers := s.workers[w := k.(phase := Ready)])
    case Driving(ticket) => if ticket < |s.wins| then Act(c, s, w, ticket) else s
  }

  /** An operation that is not possible changes nothing. */
  function Next(c: Crypto, s: System, op: Op): System {
    match op
    case Start(env, batch, maxBatch) => s.(workers := s.workers + [Worker(env, batch, Touches(map[]), maxBatch, Ready)])
    case Go(w) => if w < |s.workers| then Step(c, s, w) else s
    case Abort(w) =>
      if w < |s.workers| then s.(workers := s.workers[w := s.workers[w].(todo := [], phase := Ready)]) else s
    case Crash => s.(claimed := {}, hydrated := false, workers := [])
  }

  /** Any interleaving: the system after a list of operations. */
  function Reach(c: Crypto, s: System, ops: seq<Op>): System
    decreases |ops|
  {
    if ops == [] then s else Next(c, Reach(c, s, ops[..|ops| - 1]), ops[|ops| - 1])
  }

  // ---------- the invariant ----------

  ghost predicate WinsAreScripts(s: System) {
    forall i :: 0 <= i < |s.wins| ==> s.wins[i].left > 0 && s.wins[i].done <= |s.wins[i].Plan()|
  }

  /** Append before execute: a win that has performed anything is in the log. */
  predicate StartedIsLogged(s: System) {
    forall i :: 0 <= i < |s.wins| && s.wins[i].done > 0 ==> s.wins[i].Id() in LoggedIds(s.log)
  }

  /** Of the wins of one id, at most one has performed anything. */
  predicate OneStarted(s: System) {
    forall i, j | 0 <= i < |s.wins| && 0 <= j < |s.wins| && s.wins[i].Id() == s.wins[j].Id()
                  && s.wins[i].done > 0 && s.wins[j].done > 0 :: i == j
  }

  /** The win a worker drives is claimed, and no other win of its id has started. */
  predicate Owns(s: System, ticket: nat) {
    && ticket < |s.wins| && s.hydrated && s.wins[ticket].Id() in s.claimed
    && forall i :: 0 <= i < |s.wins| && i != ticket && s.wins[i].Id() == s.wins[ticket].Id() ==> s.wins[i].done == 0
  }

  predicate WorkersOwnTheirEvents(s: System) {
    && (forall w :: 0 <= w < |s.workers| && s.workers[w].phase.Driving? ==> Owns(s, s.workers[w].phase.ticket))
    && (forall w :: 0 <= w < |s.workers| && s.workers[w].phase.Marking? ==>
          s.hydrated && s.workers[w].phase.task.eventId in s.claimed)
  }

  predicate EventsHaveOneWorker(s: System) {
    forall v, w | 0 <= v < |s.workers| && 0 <= w < |s.workers| && v != w
                  && s.workers[v].phase.Driving? && s.workers[w].phase.Driving?
                  && s.workers[v].phase.ticket < |s.wins| && s.workers[w].phase.ticket < |s.wins| ::
      s.wins[s.workers[v].phase.ticket].Id() != s.wins[s.workers[w].phase.ticket].Id()
  }

  predicate ClaimsCoverTheLog(s: System) {
    if s.hydrated then LoggedIds(s.log) <= s.claimed else s.claimed == {}
  }

  /** The log's rows of a started win's event are exactly what it has written. */
  ghost predicate LogShowsTheWins(s: System) {
    forall i :: 0 <= i < |s.wins| && s.wins[i].done > 0 && s.wins[i].done <= |s.wins[i].Plan()| ==>
                  Filter(RowsOf(s.log), EventRow(s.wins[i].Id())) == Written(s.wins[i].Plan()[..s.wins[i].done])
  }

  /** A driven event whose script has not started has no rows yet, except markers
      of refused deliveries. */
  predicate UnstartedIsUnlogged(s: System) {
    forall w :: 0 <= w < |s.workers| && s.workers[w].phase.Driving? ==> NoRowsBeforeStart(s, s.workers[w].phase.ticket)
  }

  predicate NoRowsBeforeStart(s: System, ticket: nat) {
    ticket < |s.wins| && s.wins[ticket].done == 0 ==> Filter(RowsOf(s.log), EventRow(s.wins[ticket].Id())) == []
  }

  /** Who may act for which event. */
  ghost predicate Ownership(s: System) {
    && WinsAreScripts(s) && StartedIsLogged(s) && OneStarted(s) && WorkersOwnTheirEvents(s) && EventsHaveOneWorker(s)
    && ClaimsCoverTheLog(s)
  }

  /** What the log says about what was done. */
  ghost predicate Records(c: Crypto, s: System) {
    LogShowsTheWins(s) && UnstartedIsUnlogged(s) && ValidChain(c, s.log)
  }

  ghost predicate Inv(c: Crypto, s: System) {
    Ownership(s) && Records(c, s)
  }

  // ---------- lemmas about scripts ----------

  lemma {:induction false} WrittenConcat(a: seq<Action>, b: seq<Action>)
    ensures Written(a + b) == Written(a) + Written(b)
  {
    if a == [] {
      assert a + b == b && Written(a) + Written(b) == Written(b);
    } else {
      var rest := a[1..];
      assert a + b == [a[0]] + (rest + b) && (a + b)[1..] == rest + b;
      WrittenConcat(rest, b);
      var first: seq<Row> := if a[0].Write? then [a[0].row] else [];
      assert Written(a + b) == first + Written(rest + b);
      assert Written(a) == first + Written(rest);
      hide Written;
      assert first + (Written(rest) + Written(b)) == (first + Written(rest)) + Written(b);
    }
  }

  lemma {:induction false} AttemptsConcat(a: seq<Action>, b: seq<Action>)
    ensures Attempts(a + b) == Attempts(a) + Attempts(b)
  {
    if a == [] {
      assert a + b == b && Attempts(a) + Attempts(b) == Attempts(b);
    } else {
      var rest := a[1..];
      assert a + b == [a[0]] + (rest + b) && (a + b)[1..] == rest + b;
      AttemptsConcat(rest, b);
      var first: seq<nat> := if a[0].Touch? then [a[0].attempt] else [];
      assert Attempts(a + b) == first + Attempts(rest + b);
      assert Attempts(a) == first + Attempts(rest);
      hide Attempts;
      assert first + (Attempts(rest) + Attempts(b)) == (first + Attempts(rest)) + Attempts(b);
    }
  }

  lemma ActionsConcat(a: seq<Action>, b: seq<Action>)
    ensures Written(a + b) == Written(a) + Written(b)
    ensures Attempts(a + b) == Attempts(a) + Attempts(b)
  {
    WrittenConcat(a, b);
    AttemptsConcat(a, b);
  }

  lemma {:induction false} WriteAllWrites(rows: seq<Row>)
    ensures Written(WriteAll(rows)) == rows && Attempts(WriteAll(rows)) == []
  {
    if rows != [] {
      assert WriteAll(rows)[1..] == WriteAll(rows[1..]);
      WriteAllWrites(rows[1..]);
    }
  }

  lemma StepScriptWrites(s: Step)
    ensures Written(StepScript(s)) == StepRows(s)
    ensures Attempts(StepScript(s)) == if s.executed then [s.attempt] else []
  {
    var touch := if s.executed then [Touch(s.attempt)] else [];
    WriteAllWrites(s.after);
    ActionsConcat([Write(s.before)] + touch, WriteAll(s.after));
    ActionsConcat([Write(s.before)], touch);
    hide WriteAll;
  }

  /** A script writes the rows of its steps. */
  lemma {:induction false} ScriptWrites(steps: seq<Step>)
    ensures Written(Script(steps)) == RowsOfSteps(steps)
  {
    hide StepScript;
    if steps != [] {
      StepScriptWrites(steps[0]);
      ScriptWrites(steps[1..]);
      ActionsConcat(StepScript(steps[0]), Script(steps[1..]));
    }
  }

  function UpTo(n: nat): (s: seq<nat>)
    ensures |s| == n && forall i :: 0 <= i < n ==> s[i] == i
  {
    seq(n, i requires 0 <= i < n => i)
  }

  lemma ScriptAttempts(steps: seq<Step>)
    ensures steps == [] ==> Attempts(Script(steps)) == []
    ensures steps != [] ==>
              Attempts(Script(steps))
              == (if steps[0].executed then [steps[0].attempt] else []) + Attempts(Script(steps[1..]))
  {
    hide StepScript;
    if steps != [] {
      StepScriptWrites(steps[0]);
      ActionsConcat(StepScript(steps[0]), Script(steps[1..]));
    }
  }

  /** A trace executes consecutive attempts, each once. */
  lemma {:induction false} TraceAttempts(m: Machine, t: Task, base: nat, k: nat, left: int)
    requires WellFormed(m) && k <= GUARD
    ensures var steps := RunFrom(m, t, base, k, left).steps;
            var attempts := Attempts(Script(steps));
            |attempts| == Executions(steps) && forall i :: 0 <= i < |attempts| ==> attempts[i] == k + i
    decreases GUARD - k
  {
    hide Script, Attempts, WellFormed;
    var steps := RunFrom(m, t, base, k, left).steps;
    ScriptAttempts(steps);
    if k < GUARD && left > 0 {
      var turn := m.turn(t, k, base + k);
      TurnsAreWellFormed(m, t, k, base + k);
      if turn.next.None? {
        TraceAttempts(m, t, base, k + 1, left - 1);
        assert steps[1..] == RunFrom(m, t, base, k + 1, left - 1).steps;
      } else {
        assert steps[1..] == [];
        ScriptAttempts([]);
      }
    }
  }

  lemma WinWrites(w: Win)
    requires w.left > 0
    ensures var plan := w.Plan();
            && plan != [] && plan[0].Write?
            && forall i :: 0 <= i < |plan| && plan[i].Write? ==> RowOf(w.env.clock.now, w.task, plan[i].row)
  {
    hide RunFrom, WellFormed;
    var m := MachineOf(w.env);
    MachineIsWellFormed(w.env);
    TraceNonEmpty(m, w.task, w.base, w.left);
    TraceRows(m, w.task, w.base, 0, w.left);
    ScriptWrites(w.Trace().steps);
    WrittenHas(w.Plan());
    assert w.Plan()[0] == Write(w.Trace().steps[0].before);
  }

  lemma {:induction false} WrittenHas(actions: seq<Action>)
    ensures forall i :: 0 <= i < |actions| && actions[i].Write? ==> actions[i].row in Written(actions)
  {
    if actions != [] {
      WrittenHas(actions[1..]);
      assert forall i :: 1 <= i < |actions| ==> actions[i] == actions[1..][i - 1];
    }
  }

  lemma WrittenNext(actions: seq<Action>, n: nat)
    requires n < |actions|
    ensures Written(actions[..n + 1]) == Written(actions[..n]) + (if actions[n].Write? then [actions[n].row] else [])
    ensures Attempts(actions[..n + 1])
            == Attempts(actions[..n]) + (if actions[n].Touch? then [actions[n].attempt] else [])
    ensures Written(actions[..0]) == []
  {
    assert actions[..n + 1] == actions[..n] + [actions[n]];
    ActionsConcat(actions[..n], [actions[n]]);
  }

  // ---------- the invariant is kept ----------

  lemma AppendGrows(c: Crypto, log: seq<Entry>, row: Row)
    requires Sound(c) && ValidChain(c, log)
    ensures var log' := Appended(c, log, row);
            && RowsOf(log') == RowsOf(log) + [row]
            && LoggedIds(log') == LoggedIds(log) + {row.eventId}
            && ValidChain(c, log')
  {
    var log' := Appended(c, log, row);
    AppendedIsChainAppend(c, log, row);
    AppendVerifies(c, log, row);
    assert log'[|log|].row == row && forall i :: 0 <= i < |log| ==> log'[i] == log[i];
    hide ComputeHash, LinkHash, ValidChain;
  }

  lemma EventRowsGrow(rows: seq<Row>, row: Row, id: string)
    ensures Filter(rows + [row], EventRow(id)) ==
            Filter(rows, EventRow(id)) + (if row.eventId == id && !IsDuplicate(row) then [row] else [])
  {
    FilterConcat(rows, [row], EventRow(id));
    assert Filter([row], EventRow(id)) == if EventRow(id)(row) then [row] else [];
  }

  lemma UnloggedHasNoRows(log: seq<Entry>, id: string)
    requires id !in LoggedIds(log)
    ensures Filter(RowsOf(log), EventRow(id)) == []
  {
    var rows := RowsOf(log);
    assert forall r :: r in rows ==> !EventRow(id)(r);
    FilterNone(rows, EventRow(id));
  }

  lemma ClaimKeeps(c: Crypto, s: System, w: nat)
    requires Inv(c, s) && w < |s.workers| && s.workers[w].phase.Ready? && s.workers[w].todo != []
    ensures Inv(c, Claim(s, w))
  {
    ClaimKeepsOwnership(c, s, w);
    ClaimKeepsRecords(c, s, w);
    hide Claim, Ownership, Records;
  }

  lemma ClaimKeepsOwnership(c: Crypto, s: System, w: nat)
    requires Inv(c, s) && w < |s.workers| && s.workers[w].phase.Ready? && s.workers[w].todo != []
    ensures Ownership(Claim(s, w))
  {
    hide Filter, Written, LoggedIds, RowsOf, Win.Plan, Records, Seen, WorkersOwnTheirEvents, EventsHaveOneWorker;
    var s' := Claim(s, w);
    ClaimKeepsWorkers(c, s, w);
    assert s'.hydrated && LoggedIds(s.log) <= s'.claimed && s'.log == s.log;
    assert forall i :: 0 <= i < |s.wins| ==> s'.wins[i] == s.wins[i];
    assert forall i :: |s.wins| <= i < |s'.wins| ==> s'.wins[i].done == 0;
  }

  lemma ClaimKeepsWorkers(c: Crypto, s: System, w: nat)
    requires Inv(c, s) && w < |s.workers| && s.workers[w].phase.Ready? && s.workers[w].todo != []
    ensures WorkersOwnTheirEvents(Claim(s, w)) && EventsHaveOneWorker(Claim(s, w))
  {
    hide Filter, Written, LoggedIds, RowsOf, Win.Plan, Records, Seen, OneStarted, WinsAreScripts;
    var s' := Claim(s, w);
    assert s'.hydrated && LoggedIds(s.log) <= s.Horizon() <= s'.claimed && s'.log == s.log;
    assert forall i :: 0 <= i < |s.wins| ==> s'.wins[i] == s.wins[i];
    assert forall i :: |s.wins| <= i < |s'.wins| ==> s'.wins[i].done == 0 && s'.wins[i].Id() !in s.Horizon();
  }

  lemma ClaimKeepsRecords(c: Crypto, s: System, w: nat)
    requires Inv(c, s) && w < |s.workers| && s.workers[w].phase.Ready? && s.workers[w].todo != []
    ensures Records(c, Claim(s, w))
  {
    hide Filter, Written, LoggedIds, RowsOf, Win.Plan, ValidChain, StartedIsLogged, OneStarted, EventsHaveOneWorker;
    assert LoggedIds(s.log) <= s.Horizon();
    assert forall i :: 0 <= i < |s.wins| ==> Claim(s, w).wins[i] == s.wins[i];
    if |Claim(s, w).wins| > |s.wins| {
      UnloggedHasNoRows(s.log, s.workers[w].todo[0].eventId);
    }
  }

  lemma MarkKeeps(c: Crypto, s: System, w: nat)
    requires Sound(c) && Inv(c, s) && w < |s.workers| && s.workers[w].phase.Marking?
    ensures Inv(c, Step(c, s, w))
  {
    hide Filter, Written, LoggedIds, RowsOf, Win.Plan, ValidChain, Appended;
    var row := DuplicateRow(s.workers[w].env.clock.now, s.workers[w].phase.task);
    AppendGrows(c, s.log, row);
    forall i | 0 <= i < |s.wins| { EventRowsGrow(RowsOf(s.log), row, s.wins[i].Id()); }
  }

  lemma DoneKeeps(c: Crypto, s: System, w: nat, ticket: nat)
    requires Inv(c, s) && w < |s.workers| && s.workers[w].phase == Driving(ticket) && ticket < |s.wins|
    requires s.wins[ticket].done == |s.wins[ticket].Plan()|
    ensures Inv(c, Act(c, s, w, ticket))
  {
    hide Filter, Written, LoggedIds, RowsOf, Win.Plan, ValidChain, Appended, Executions, RunFrom;
  }

  lemma PlanIsFixed(win: Win, done: nat)
    ensures win.(done := done).Plan() == win.Plan() && win.(done := done).Trace() == win.Trace()
  {
  }

  /** A worker that drives a win with actions left. */
  ghost predicate CanAct(c: Crypto, s: System, w: nat, ticket: nat) {
    && Inv(c, s) && w < |s.workers| && s.workers[w].phase == Driving(ticket) && ticket < |s.wins|
    && s.wins[ticket].done < |s.wins[ticket].Plan()|
  }

  lemma WriteKeepsOwnership(c: Crypto, s: System, w: nat, ticket: nat)
    requires Sound(c) && CanAct(c, s, w, ticket) && s.wins[ticket].Plan()[s.wins[ticket].done].Write?
    ensures Ownership(Act(c, s, w, ticket))
  {
    hide Filter, Written, LoggedIds, RowsOf, Win.Plan, ValidChain, Appended, Executions, RunFrom, LogShowsTheWins,
         UnstartedIsUnlogged;
    var win := s.wins[ticket];
    WinWrites(win);
    PlanIsFixed(win, win.done + 1);
    AppendGrows(c, s.log, win.Plan()[win.done].row);
  }

  lemma WriteKeepsRecords(c: Crypto, s: System, w: nat, ticket: nat)
    requires Sound(c) && CanAct(c, s, w, ticket) && s.wins[ticket].Plan()[s.wins[ticket].done].Write?
    ensures Records(c, Act(c, s, w, ticket))
  {
    hide Filter, Written, LoggedIds, RowsOf, Win.Plan, ValidChain, Appended, Executions, RunFrom, StartedIsLogged,
         OneStarted, ClaimsCoverTheLog;
    var win := s.wins[ticket];
    var n, plan := win.done, win.Plan();
    WinWrites(win);
    WrittenNext(plan, n);
    PlanIsFixed(win, n + 1);
    AppendGrows(c, s.log, plan[n].row);
    forall i | 0 <= i < |s.wins| { EventRowsGrow(RowsOf(s.log), plan[n].row, s.wins[i].Id()); }
    assert [] + [plan[n].row] == [plan[n].row];
    assert forall r: seq<Row> :: r + [] == r;
  }

  lemma TouchKeepsOwnership(c: Crypto, s: System, w: nat, ticket: nat)
    requires CanAct(c, s, w, ticket) && s.wins[ticket].Plan()[s.wins[ticket].done].Touch?
    ensures Ownership(Act(c, s, w, ticket))
  {
    hide Filter, Written, LoggedIds, RowsOf, Win.Plan, ValidChain, Appended, Executions, RunFrom, LogShowsTheWins,
         UnstartedIsUnlogged;
    WinWrites(s.wins[ticket]);
    PlanIsFixed(s.wins[ticket], s.wins[ticket].done + 1);
  }

  lemma TouchKeepsRecords(c: Crypto, s: System, w: nat, ticket: nat)
    requires CanAct(c, s, w, ticket) && s.wins[ticket].Plan()[s.wins[ticket].done].Touch?
    ensures Records(c, Act(c, s, w, ticket))
  {
    hide Filter, Written, LoggedIds, RowsOf, Win.Plan, ValidChain, Appended, Executions, RunFrom, StartedIsLogged,
         OneStarted, ClaimsCoverTheLog;
    var win := s.wins[ticket];
    WinWrites(win);
    WrittenNext(win.Plan(), win.done);
    PlanIsFixed(win, win.done + 1);
    assert forall r: seq<Row> :: r + [] == r;
  }

  lemma AbortKeeps(c: Crypto, s: System, w: nat)
    requires Inv(c, s) && w < |s.workers|
    ensures Inv(c, Next(c, s, Op.Abort(w)))
  {
    hide Filter, Written, LoggedIds, RowsOf, Win.Plan, ValidChain, Appended, Executions, RunFrom, Step;
  }

  lemma StartAndCrashKeep(c: Crypto, s: System, op: Op)
    requires Inv(c, s) && (op.Start? || op.Crash?)
    ensures Inv(c, Next(c, s, op))
  {
    hide Filter, Written, LoggedIds, RowsOf, Win.Plan, ValidChain, Appended, Executions, RunFrom, Step;
  }

  lemma NextKeeps(c: Crypto, s: System, op: Op)
    requires Sound(c) && Inv(c, s)
    ensures Inv(c, Next(c, s, op))
  {
    if op.Go? && op.worker < |s.workers| {
      var w := op.worker;
      match s.workers[w].phase {
        case Ready =>
          if s.workers[w].todo != [] {
            ClaimKeeps(c, s, w);
          }
        case Marking(_) => MarkKeeps(c, s, w);
        case Driving(ticket) =>
          assert Owns(s, ticket);
          assert s.wins[ticket].done <= |s.wins[ticket].Plan()|;
          if s.wins[ticket].done < |s.wins[ticket].Plan()| {
            if s.wins[ticket].Plan()[s.wins[ticket].done].Write? {
              WriteKeepsOwnership(c, s, w, ticket);
              WriteKeepsRecords(c, s, w, ticket);
            } else {
              TouchKeepsOwnership(c, s, w, ticket);
              TouchKeepsRecords(c, s, w, ticket);
            }
          } else {
            DoneKeeps(c, s, w, ticket);
          }
      }
    } else if op.Abort? && op.worker < |s.workers| {
      AbortKeeps(c, s, op.worker);
    } else if op.Start? || op.Crash? {
      StartAndCrashKeep(c, s, op);
    }
    hide *;
  }

  /** The invariant holds after every interleaving of workers, aborts and crashes. */
  lemma {:induction false} ReachKeeps(c: Crypto, s: System, ops: seq<Op>)
    requires Sound(c) && Inv(c, s)
    ensures Inv(c, Reach(c, s, ops))
    decreases |ops|
  {
    hide Inv, Next;
    if ops != [] {
      ReachKeeps(c, s, ops[..|ops| - 1]);
      NextKeeps(c, Reach(c, s, ops[..|ops| - 1]), ops[|ops| - 1]);
    }
  }

  lemma OpenedIsFine(c: Crypto, log: seq<Entry>)
    requires ValidChain(c, log)
    ensures Inv(c, Opened(log))
  {
  }

  // ---------- what every interleaving guarantees ----------

  /** The attempts a win has executed so far. */
  function Executed(w: Win): seq<nat> {
    if w.done <= |w.Plan()| then Attempts(w.Plan()[..w.done]) else []
  }

  lemma {:induction false} AttemptsPrefix(actions: seq<Action>, n: nat)
    requires n <= |actions|
    ensures Attempts(actions[..n]) <= Attempts(actions)
    ensures Written(actions[..n]) <= Written(actions)
  {
    assert actions == actions[..n] + actions[n..];
    ActionsConcat(actions[..n], actions[n..]);
  }

  /** At most once: all executions of an event come from one claim winner, and that
      winner executes attempts 0, 1, 2, ... each once - all of its run's once it is
      done. */
  lemma AtMostOnce(c: Crypto, log: seq<Entry>, ops: seq<Op>, i: nat, j: nat)
    requires Sound(c) && ValidChain(c, log)
    requires var wins := Reach(c, Opened(log), ops).wins; i < |wins| && j < |wins| && wins[i].Id() == wins[j].Id()
    ensures var wins := Reach(c, Opened(log), ops).wins;
            && (Executed(wins[i]) != [] && Executed(wins[j]) != [] ==> i == j)
            && Executed(wins[i]) == UpTo(|Executed(wins[i])|)
            && |Executed(wins[i])| <= Executions(wins[i].Trace().steps)
            && (wins[i].done == |wins[i].Plan()| ==> |Executed(wins[i])| == Executions(wins[i].Trace().steps))
  {
    hide Reach, RunFrom, WellFormed, LogShowsTheWins, WorkersOwnTheirEvents, EventsHaveOneWorker, ValidChain,
         LoggedIds, Executions;
    var s := Reach(c, Opened(log), ops);
    OpenedIsFine(c, log);
    ReachKeeps(c, Opened(log), ops);
    var win := s.wins[i];
    MachineIsWellFormed(win.env);
    TraceAttempts(MachineOf(win.env), win.task, win.base, 0, win.left);
    AttemptsPrefix(win.Plan(), win.done);
    assert win.Plan()[..|win.Plan()|] == win.Plan();
    NothingDoneNothingExecuted(win);
    NothingDoneNothingExecuted(s.wins[j]);
    hide Script, Win.Plan, Attempts;
  }

  lemma NothingDoneNothingExecuted(w: Win)
    ensures w.done == 0 ==> Executed(w) == []
  {
  }

  /** Every reachable log verifies. */
  lemma {:induction false} ReachableLogsVerify(c: Crypto, log: seq<Entry>, ops: seq<Op>)
    requires Sound(c) && ValidChain(c, log)
    ensures ValidChain(c, Reach(c, Opened(log), ops).log)
  {
    OpenedIsFine(c, log);
    ReachKeeps(c, Opened(log), ops);
    hide Reach;
  }

  /** The log's rows of a started event, whoever else was writing, are a prefix of
      what its one winner's sequential run writes. */
  lemma {:induction false} LogShowsOneRun(c: Crypto, log: seq<Entry>, ops: seq<Op>, i: nat)
    requires Sound(c) && ValidChain(c, log)
    requires i < |Reach(c, Opened(log), ops).wins| && Reach(c, Opened(log), ops).wins[i].done > 0
    ensures var s := Reach(c, Opened(log), ops);
            Filter(RowsOf(s.log), EventRow(s.wins[i].Id())) <= RowsOfSteps(s.wins[i].Trace().steps)
    ensures var s := Reach(c, Opened(log), ops);
            s.wins[i].done == |s.wins[i].Plan()| ==>
              Filter(RowsOf(s.log), EventRow(s.wins[i].Id())) == RowsOfSteps(s.wins[i].Trace().steps)
  {
    hide Reach, RunFrom, WorkersOwnTheirEvents, EventsHaveOneWorker, ValidChain, LoggedIds, Filter, Script, EventRow;
    var s := Reach(c, Opened(log), ops);
    OpenedIsFine(c, log);
    ReachKeeps(c, Opened(log), ops);
    var win := s.wins[i];
    ScriptWrites(win.Trace().steps);
    AttemptsPrefix(win.Plan(), win.done);
    assert win.Plan()[..|win.Plan()|] == win.Plan();
  }

  /** Append before execute: an executed attempt's own decision row is in the log. */
  lemma {:induction false} ExecutionsAreLogged(c: Crypto, log: seq<Entry>, ops: seq<Op>, i: nat, k: nat)
    requires Sound(c) && ValidChain(c, log)
    requires i < |Reach(c, Opened(log), ops).wins| && k in Executed(Reach(c, Opened(log), ops).wins[i])
    ensures var s := Reach(c, Opened(log), ops);
            var steps := s.wins[i].Trace().steps;
            && k < |steps| && steps[k].attempt == k && steps[k].executed
            && steps[k].before in RowsOf(s.log)
            && steps[k].before.eventId == s.wins[i].Id() && steps[k].before.attempt == Some(k)
  {
    hide Reach, Inv;
    OpenedIsFine(c, log);
    ReachKeeps(c, Opened(log), ops);
    DoneIsLogged(c, Reach(c, Opened(log), ops), i, k);
  }

  lemma {:induction false} DoneIsLogged(c: Crypto, s: System, i: nat, k: nat)
    requires Inv(c, s) && i < |s.wins| && k in Executed(s.wins[i])
    ensures var steps := s.wins[i].Trace().steps;
            && k < |steps| && steps[k].attempt == k && steps[k].executed
            && steps[k].before in RowsOf(s.log)
            && steps[k].before.eventId == s.wins[i].Id() && steps[k].before.attempt == Some(k)
  {
    hide RunFrom, Ownership, ValidChain, Script, WellFormed, UnstartedIsUnlogged;
    var win := s.wins[i];
    var plan := win.Plan();
    AttemptsAre(plan[..win.done], k);
    var p :| 0 <= p < win.done && plan[..win.done][p] == Touch(k);
    MachineIsWellFormed(win.env);
    var q := ScriptPrecedes(win.Trace().steps, p);
    TraceStepsAreAttempts(MachineOf(win.env), win.task, win.base, win.left, q);
    WrittenHas(plan[..win.done]);
    assert plan[..win.done][p - 1] == plan[p - 1];
    hide Win.Plan, Attempts, Written;
  }

  lemma {:induction false} AttemptsAre(actions: seq<Action>, k: nat)
    ensures k in Attempts(actions) <==> exists p :: 0 <= p < |actions| && actions[p] == Touch(k)
  {
    if actions != [] {
      AttemptsAre(actions[1..], k);
      assert forall p :: 1 <= p < |actions| ==> actions[p] == actions[1..][p - 1];
      if k in Attempts(actions) && actions[0] != Touch(k) {
        var p :| 0 <= p < |actions[1..]| && actions[1..][p] == Touch(k);
        assert actions[p + 1] == Touch(k);
      }
    }
  }

  /** In a step's script the only touch comes second, after the decision row. */
  lemma StepPrecedes(s: Step)
    ensures forall p :: 0 <= p < |StepScript(s)| && StepScript(s)[p].Touch? ==>
              p == 1 && s.executed && StepScript(s)[p].attempt == s.attempt
    ensures |StepScript(s)| > 0 && StepScript(s)[0] == Write(s.before)
  {
  }

  /** The touch at position `p` of a script belongs to step `q`. */
  predicate TouchOfStep(steps: seq<Step>, plan: seq<Action>, p: nat, q: nat) {
    && 0 < p < |plan| && q < |steps|
    && steps[q].executed && plan[p] == Touch(steps[q].attempt) && plan[p - 1] == Write(steps[q].before)
  }

  /** In a script every touch comes right after the decision row of its own step. */
  lemma {:induction false} ScriptPrecedes(steps: seq<Step>, p: nat) returns (q: nat)
    requires p < |Script(steps)| && Script(steps)[p].Touch?
    ensures TouchOfStep(steps, Script(steps), p, q)
  {
    hide StepScript;
    var first, rest := StepScript(steps[0]), Script(steps[1..]);
    assert Script(steps) == first + rest;
    StepPrecedes(steps[0]);
    if p < |first| {
      q := 0;
    } else {
      assert (first + rest)[p] == rest[p - |first|];
      var q' := ScriptPrecedes(steps[1..], p - |first|);
      q := q' + 1;
    }
  }

  /** The steps of a trace are its attempts. */
  lemma TraceStepsAreAttempts(m: Machine, t: Task, base: nat, left: int, q: nat)
    requires WellFormed(m) && q < |RunFrom(m, t, base, 0, left).steps|
    ensures var step := RunFrom(m, t, base, 0, left).steps[q];
            step.attempt == q && RowOf(m.now, t, step.before) && step.before.attempt == Some(q)
  {
    hide RunFrom, WellFormed, RowOf;
    TraceShape(m, t, base, 0, left);
    TurnsAreWellFormed(m, t, q, base + q);
    var step := RunFrom(m, t, base, 0, left).steps[q];
    assert step == TurnAt(m, t, base, q).step && step.before in StepRows(step);
  }

  // ---------- once logged, never again ----------

  lemma ClaimSparesLogged(c: Crypto, s: System, op: Op, id: string)
    requires Sound(c) && Inv(c, s) && id in LoggedIds(s.log)
    ensures var s' := Next(c, s, op);
            && id in LoggedIds(s'.log) && |s.wins| <= |s'.wins|
            && forall i :: |s.wins| <= i < |s'.wins| ==> s'.wins[i].Id() != id
  {
    hide LoggedIds, RowsOf, Win.Plan, ValidChain, Appended, Executions, RunFrom, WinsAreScripts, LogShowsTheWins,
         EventsHaveOneWorker, UnstartedIsUnlogged, StartedIsLogged, OneStarted, WorkersOwnTheirEvents;
    forall row { AppendGrows(c, s.log, row); }
  }

  /** An event with a row in the log - because it was driven before a crash, or
      refused - is never claimed again, in this life of the process or a later one. */
  lemma {:induction false} LoggedIsNeverWonAgain(c: Crypto, s: System, ops: seq<Op>, id: string)
    requires Sound(c) && Inv(c, s) && id in LoggedIds(s.log)
    ensures var s' := Reach(c, s, ops);
            && id in LoggedIds(s'.log) && |s.wins| <= |s'.wins|
            && forall i :: |s.wins| <= i < |s'.wins| ==> s'.wins[i].Id() != id
    decreases |ops|
  {
    hide Inv, Next, LoggedIds, Step;
    if ops != [] {
      var front, last := ops[..|ops| - 1], ops[|ops| - 1];
      LoggedIsNeverWonAgain(c, s, front, id);
      ReachKeeps(c, s, front);
      ClaimSparesLogged(c, Reach(c, s, front), last, id);
      IdsAreFixed(c, Reach(c, s, front), last);
    }
  }

  lemma IdsAreFixed(c: Crypto, s: System, op: Op)
    ensures var s' := Next(c, s, op);
            |s.wins| <= |s'.wins| && forall i :: 0 <= i < |s.wins| ==> s'.wins[i].Id() == s.wins[i].Id()
  {
    hide Win.Plan, Appended, LoggedIds, Executions, RunFrom;
  }

  // ---------- a claim is not granted once ----------

  /** A worker wins a claim and the process crashes before it writes anything. */
  function ClaimThenCrash(env: Env, t: Task, maxBatch: int): seq<Op> {
    [Start(env, [t], maxBatch), Go(0), Crash, Start(env, [t], maxBatch), Go(0)]
  }

  /** Then the reopened store grants the claim of the same event again. */
  lemma ClaimIsGrantedTwice(c: Crypto, env: Env, t: Task, maxBatch: int)
    requires maxBatch > 0
    ensures var s := Reach(c, Opened([]), ClaimThenCrash(env, t, maxBatch));
            |s.wins| == 2 && s.wins[0].Id() == s.wins[1].Id() == t.eventId && s.wins[0].done == s.wins[1].done == 0
  {
    hide RunFrom, Act, Appended;
    var ops := ClaimThenCrash(env, t, maxBatch);
    assert ops[..5] == ops;
    assert ops[..5][..4] == ops[..4] && ops[..4][..3] == ops[..3] && ops[..3][..2] == ops[..2]
           && ops[..2][..1] == ops[..1];
    assert ops[..1][..0] == [];
    var s1 := Next(c, Opened([]), ops[0]);
    var s2 := Next(c, s1, ops[1]);
    assert |s2.wins| == 1;
    assert Reach(c, Opened([]), ops[..1]) == s1;
    assert Reach(c, Opened([]), ops[..2]) == s2;
    var s4 := Next(c, Next(c, s2, ops[2]), ops[3]);
    assert Reach(c, Opened([]), ops[..4]) == s4;
    assert Reach(c, Opened([]), ops[..5]) == Next(c, s4, ops[4]);
  }

  // ---------- a lone worker is RunBatch ----------

  /** `n` consecutive steps of the first worker. */
  function Turns(n: nat): (ops: seq<Op>)
    ensures |ops| == n && forall i :: 0 <= i < n ==> ops[i] == Go(0)
  {
    seq(n, i => Go(0))
  }

  lemma {:induction false} ReachMore(c: Crypto, s: System, a: seq<Op>, b: seq<Op>)
    ensures Reach(c, s, a + b) == Reach(c, Reach(c, s, a), b)
    decreases |b|
  {
    hide Next;
    if b == [] {
      assert a + b == a;
    } else {
      assert (a + b)[..|a + b| - 1] == a + b[..|b| - 1];
      ReachMore(c, s, a, b[..|b| - 1]);
    }
  }

  lemma {:induction false} TurnsMore(c: Crypto, s: System, n: nat)
    ensures Reach(c, s, Turns(n + 1)) == Reach(c, Next(c, s, Go(0)), Turns(n))
    ensures Reach(c, s, Turns(0)) == s
  {
    hide Next;
    assert Turns(n + 1) == Turns(1) + Turns(n);
    ReachMore(c, s, Turns(1), Turns(n));
    assert Turns(1)[..0] == [];
  }

  /** A lone worker performs the rest of the script it drives. */
  lemma {:induction false} SoloDrive(c: Crypto, s: System, ticket: nat)
    requires |s.workers| == 1 && s.workers[0].phase == Driving(ticket) && ticket < |s.wins|
    requires s.wins[ticket].done <= |s.wins[ticket].Plan()|
    ensures var win := s.wins[ticket];
            var plan := win.Plan();
            Reach(c, s, Turns(|plan| - win.done))
            == s.(log := AppendedAll(c, s.log, Written(plan[win.done..])),
                  wins := s.wins[ticket := win.(done := |plan|)])
    decreases |s.wins[ticket].Plan()| - s.wins[ticket].done
  {
    hide Reach, RunFrom, Appended, Script, Written;
    var win := s.wins[ticket];
    var plan, n := win.Plan(), win.done;
    if n == |plan| {
      TurnsMore(c, s, 0);
      WrittenFrom(plan, n);
      assert s.wins[ticket := win.(done := |plan|)] == s.wins;
    } else {
      var s' := Next(c, s, Go(0));
      PlanIsFixed(win, n + 1);
      SoloDrive(c, s', ticket);
      TurnsMore(c, s, |plan| - n - 1);
      WrittenFrom(plan, n);
      AppendedFirst(c, s.log, plan[n], Written(plan[n + 1..]));
    }
  }

  lemma WrittenFrom(actions: seq<Action>, n: nat)
    requires n <= |actions|
    ensures n < |actions| ==>
              Written(actions[n..]) == (if actions[n].Write? then [actions[n].row] else []) + Written(actions[n + 1..])
    ensures n == |actions| ==> Written(actions[n..]) == []
  {
    if n < |actions| {
      assert actions[n..][1..] == actions[n + 1..];
    }
  }

  lemma AppendedFirst(c: Crypto, log: seq<Entry>, a: Action, rest: seq<Row>)
    ensures a.Write? ==> AppendedAll(c, log, [a.row] + rest) == AppendedAll(c, Appended(c, log, a.row), rest)
    ensures [] + rest == rest
    ensures AppendedAll(c, log, []) == log
  {
    if a.Write? {
      assert ([a.row] + rest)[1..] == rest;
    }
  }

  /** The worker's book. */
  function BookOf(s: System): Book
    requires |s.workers| == 1
  {
    Book(s.Horizon(), s.workers[0].touches, s.workers[0].left)
  }

  predicate Lone(s: System) {
    |s.workers| == 1 && s.workers[0].phase.Ready? && (!s.hydrated ==> s.claimed == {})
  }

  /** The system after a lone worker has gone through its whole batch. */
  predicate Completed(c: Crypto, s: System, s': System)
    requires Lone(s)
  {
    var k := s.workers[0];
    var run := Process(MachineOf(k.env), k.todo, BookOf(s));
    && Lone(s') && s'.workers[0].todo == []
    && s'.log == AppendedAll(c, s.log, RowsOfDeliveries(run.deliveries))
    && BookOf(s') == run.book
  }

  /** Driving one won event to the end and booking it. */
  lemma SoloEvent(c: Crypto, s: System) returns (n: nat)
    requires Lone(s) && s.workers[0].todo != []
    requires s.workers[0].todo[0].eventId !in s.Horizon() && s.workers[0].left > 0
    ensures var k := s.workers[0];
            var d := Drive(MachineOf(k.env), k.todo[0], BookOf(s));
            var s' := Reach(c, s, Turns(n));
            && Lone(s') && s'.workers[0].todo == k.todo[1..] && s'.workers[0].env == k.env
            && s'.log == AppendedAll(c, s.log, RowsOfSteps(d.trace.steps))
            && BookOf(s') == Loop.After(BookOf(s), d)
  {
    hide Reach, RunFrom, Appended, Script, Written, AppendedAll, RowsOfSteps, Executions, Touched;
    var claimed := Next(c, s, Go(0));
    var ticket := |s.wins|;
    var win := claimed.wins[ticket];
    SoloDrive(c, claimed, ticket);
    ScriptWrites(win.Trace().steps);
    assert win.Plan()[0..] == win.Plan();
    var driven := Reach(c, claimed, Turns(|win.Plan()|));
    PlanIsFixed(win, |win.Plan()|);
    n := |win.Plan()| + 2;
    TurnsMore(c, s, |win.Plan()| + 1);
    assert Turns(|win.Plan()| + 1) == Turns(|win.Plan()|) + Turns(1);
    ReachMore(c, claimed, Turns(|win.Plan()|), Turns(1));
    TurnsMore(c, driven, 0);
    TurnsMore(c, Next(c, driven, Go(0)), 0);
  }

  /** Refusing one delivery. */
  lemma SoloMark(c: Crypto, s: System)
    requires Lone(s) && s.workers[0].todo != [] && s.workers[0].todo[0].eventId in s.Horizon()
    ensures var k := s.workers[0];
            var s' := Reach(c, s, Turns(2));
            && Lone(s') && s'.workers[0].todo == k.todo[1..] && s'.workers[0].env == k.env
            && s'.log == Appended(c, s.log, DuplicateRow(k.env.clock.now, k.todo[0]))
            && BookOf(s') == BookOf(s)
  {
    hide Reach, Appended;
    TurnsMore(c, s, 1);
    TurnsMore(c, Next(c, s, Go(0)), 0);
    TurnsMore(c, Next(c, Next(c, s, Go(0)), Go(0)), 0);
  }

  /** A worker alone on a store does exactly what `RunBatch` does: the protocol is a
      faithful interleaving of the sequential loop. */
  lemma {:induction false} SoloRun(c: Crypto, s: System) returns (n: nat)
    requires Lone(s)
    ensures Completed(c, s, Reach(c, s, Turns(n)))
    decreases s.workers[0].todo
  {
    hide Reach, RunFrom, Appended, Executions, Touched, AppendedAll;
    var k := s.workers[0];
    var m := MachineOf(k.env);
    TurnsMore(c, s, 0);
    if k.todo == [] {
      n := 0;
      AppendedFirst(c, s.log, Touch(0), []);
    } else if k.todo[0].eventId in s.Horizon() {
      SoloMark(c, s);
      var s1 := Reach(c, s, Turns(2));
      var rest := SoloRun(c, s1);
      n := rest + 2;
      TwoRuns(c, s, 2, rest);
      var dup := DuplicateRow(k.env.clock.now, k.todo[0]);
      AppendedFirst(c, s.log, Write(dup), []);
      AppendedFirst(c, Appended(c, s.log, dup), Touch(0), []);
      assert [dup] + [] == [dup];
      SoloCompose(c, s, [dup], s1, Reach(c, s, Turns(n)));
    } else if k.left <= 0 {
      n := 1;
      TurnsMore(c, Next(c, s, Go(0)), 0);
      AppendedFirst(c, s.log, Touch(0), []);
    } else {
      var first := SoloEvent(c, s);
      var s1 := Reach(c, s, Turns(first));
      var rest := SoloRun(c, s1);
      n := first + rest;
      TwoRuns(c, s, first, rest);
      SoloCompose(c, s, RowsOfSteps(Drive(m, k.todo[0], BookOf(s)).trace.steps), s1, Reach(c, s, Turns(n)));
    }
  }

  lemma SoloCompose(c: Crypto, s: System, first: seq<Row>, s1: System, s2: System)
    requires Lone(s) && Lone(s1) && s.workers[0].todo != []
    requires s1.workers[0].todo == s.workers[0].todo[1..] && s1.workers[0].env == s.workers[0].env
    requires s1.log == AppendedAll(c, s.log, first)
    requires var k, b := s.workers[0], BookOf(s);
             var m := MachineOf(k.env);
             if k.todo[0].eventId in b.claimed then first == [DuplicateRow(m.now, k.todo[0])] && BookOf(s1) == b
             else
               b.left > 0 && first == RowsOfSteps(Drive(m, k.todo[0], b).trace.steps)
               && BookOf(s1) == Loop.After(b, Drive(m, k.todo[0], b))
    ensures Completed(c, s1, s2) ==> Completed(c, s, s2)
  {
    hide RunFrom, AppendedAll, Executions, Touched, RowsOfSteps;
    var k, b := s.workers[0], BookOf(s);
    var m := MachineOf(k.env);
    RunRowsUnfold(m, k.todo, b);
    AppendedAllConcat(c, s.log, first, RunRows(m, k.todo[1..], BookOf(s1)));
  }

  lemma TwoRuns(c: Crypto, s: System, a: nat, b: nat)
    ensures Reach(c, s, Turns(a + b)) == Reach(c, Reach(c, s, Turns(a)), Turns(b))
  {
    assert Turns(a + b) == Turns(a) + Turns(b);
    ReachMore(c, s, Turns(a), Turns(b));
  }
}
