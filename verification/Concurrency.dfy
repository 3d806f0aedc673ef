/** What the batch loop promises of its rows holds of every log that concurrent
    workers and crashes can produce (go/rz/store.go:39-111, go/rz/runner.go:49-217,
    go/rz/sandbox.go:30-68). */
module Concurrency {
  import opened Types
  import opened Classify
  import opened Loop
  import opened Runner
  import opened Chain
  import opened Store
  import opened Grammar
  import opened Locked
  import opened Protocol
  import opened Hours

  // ---------- every row is a planned row or a marker ----------

  /** Whatever a worker can write for a task satisfies `p`. */
  ghost predicate Allowed(env: Env, t: Task, p: Row -> bool) {
    WritesOnly(MachineOf(env), t, p) && p(DuplicateRow(env.clock.now, t))
  }

  /** Every batch that is ever started consists of allowed tasks. */
  ghost predicate StartsAllowed(ops: seq<Op>, p: Row -> bool) {
    forall i :: 0 <= i < |ops| ==> StartAllowed(ops[i], p)
  }

  ghost predicate StartAllowed(op: Op, p: Row -> bool) {
    op.Start? ==> forall t :: t in op.batch ==> Allowed(op.env, t, p)
  }

  ghost predicate WorkerAllowed(k: Worker, p: Row -> bool) {
    && (forall t :: t in k.todo ==> Allowed(k.env, t, p))
    && (k.phase.Marking? ==> Allowed(k.env, k.phase.task, p))
  }

  predicate RowsSatisfy(log: seq<Entry>, p: Row -> bool) {
    forall i :: 0 <= i < |log| ==> p(log[i].row)
  }

  ghost predicate Clean(s: System, p: Row -> bool) {
    && RowsSatisfy(s.log, p)
    && (forall w :: 0 <= w < |s.workers| ==> WorkerAllowed(s.workers[w], p))
    && (forall i :: 0 <= i < |s.wins| ==> Allowed(s.wins[i].env, s.wins[i].task, p))
  }

  lemma PlansAreAllowed(win: Win, p: Row -> bool, n: nat)
    requires Allowed(win.env, win.task, p) && n < |win.Plan()| && win.Plan()[n].Write?
    ensures p(win.Plan()[n].row)
  {
    hide RunFrom, Script, MachineOf, WritesOnly;
    TraceWritesOnly(MachineOf(win.env), win.task, win.base, 0, win.left, p);
    ScriptWrites(win.Trace().steps);
    WrittenHas(win.Plan());
  }

  lemma AppendKeepsRows(c: Crypto, log: seq<Entry>, row: Row, p: Row -> bool)
    requires RowsSatisfy(log, p) && p(row)
    ensures RowsSatisfy(Appended(c, log, row), p)
  {
  }

  lemma ClaimKeepsClean(s: System, w: nat, p: Row -> bool)
    requires Clean(s, p) && w < |s.workers| && s.workers[w].todo != []
    ensures Clean(Claim(s, w), p)
  {
    hide Allowed, LoggedIds, Seen;
    var k := s.workers[w];
    assert WorkerAllowed(k, p) && k.todo[0] in k.todo;
  }

  lemma StepKeepsClean(c: Crypto, s: System, w: nat, p: Row -> bool)
    requires Clean(s, p) && w < |s.workers|
    ensures Clean(Protocol.Step(c, s, w), p)
  {
    hide Allowed, LoggedIds, Appended, Win.Plan, RunFrom, Executions, Touched, RowsSatisfy;
    var k := s.workers[w];
    assert WorkerAllowed(k, p);
    match k.phase {
      case Ready =>
        if k.todo != [] {
          ClaimKeepsClean(s, w, p);
        }
        hide Claim;
      case Marking(t) =>
        assert p(DuplicateRow(k.env.clock.now, t)) by { AllowedMarker(k.env, t, p); }
        AppendKeepsRows(c, s.log, DuplicateRow(k.env.clock.now, t), p);
      case Driving(ticket) =>
        if ticket < |s.wins| && s.wins[ticket].done < |s.wins[ticket].Plan()| {
          var win := s.wins[ticket];
          if win.Plan()[win.done].Write? {
            PlansAreAllowed(win, p, win.done);
            AppendKeepsRows(c, s.log, win.Plan()[win.done].row, p);
          }
        }
    }
  }

  lemma AllowedMarker(env: Env, t: Task, p: Row -> bool)
    requires Allowed(env, t, p)
    ensures p(DuplicateRow(env.clock.now, t))
  {
  }

  lemma NextKeepsClean(c: Crypto, s: System, op: Op, p: Row -> bool)
    requires Clean(s, p) && StartAllowed(op, p)
    ensures Clean(Next(c, s, op), p)
  {
    hide Allowed, Protocol.Step, RowsSatisfy;
    if op.Go? && op.worker < |s.workers| {
      StepKeepsClean(c, s, op.worker, p);
    }
  }

  /** A property of the rows a log starts with, and of the rows that the started
      batches can write, holds of every row of every reachable log. */
  lemma {:induction false} ReachableRowsSatisfy(c: Crypto, log: seq<Entry>, ops: seq<Op>, p: Row -> bool)
    requires RowsSatisfy(log, p) && StartsAllowed(ops, p)
    ensures Clean(Reach(c, Opened(log), ops), p)
    decreases |ops|
  {
    hide Next, Allowed, StartAllowed, RowsSatisfy, WorkerAllowed;
    if ops != [] {
      var n := |ops| - 1;
      ReachableRowsSatisfy(c, log, ops[..n], p);
      assert StartAllowed(ops[n], p);
      hide Clean;
      NextKeepsClean(c, Reach(c, Opened(log), ops[..n]), ops[n], p);
    }
  }

  // ---------- the locked rules ----------

  /** Every started batch was classified by the source's classifiers. */
  predicate Classified(ops: seq<Op>) {
    forall i :: 0 <= i < |ops| && ops[i].Start? ==> forall t :: t in ops[i].batch ==> WellClassified(t)
  }

  predicate TimesAreSet(ops: seq<Op>) {
    forall i :: 0 <= i < |ops| && ops[i].Start? ==> ops[i].env.clock.now != 0
  }

  predicate NoRevokedAlert(ops: seq<Op>) {
    forall i :: 0 <= i < |ops| && ops[i].Start? ==> forall t :: t in ops[i].batch ==> !AlertsOnRevokedMandate(t)
  }

  lemma TaskIsAllowed(env: Env, t: Task, p: Row -> bool)
    requires WellClassified(t)
    requires forall r: Row :: Audited(env.clock.now, t, r) ==> p(r)
    requires forall r: Row :: r.state.Suppressed? && r.channel.NoChannel? ==> p(r)
    ensures Allowed(env, t, p)
  {
    TasksAreAudited(env, t, p);
    hide WritesOnly, WellClassified, Audited;
  }

  /** The locked rules never budge, whoever runs which batch under which tunables,
      and whenever the process crashes: a log that starts without a fraud violation
      never gets one; nor a quiet-hours violation, if all batch times are set; nor a
      revoked mandate touched, if no batch alerts on one. */
  lemma LockedRulesHoldConcurrently(c: Crypto, log: seq<Entry>, ops: seq<Op>)
    requires Classified(ops)
    ensures RowsSatisfy(log, (r: Row) => !FraudHit(r)) ==>
              RowsSatisfy(Reach(c, Opened(log), ops).log, (r: Row) => !FraudHit(r))
    ensures TimesAreSet(ops) && RowsSatisfy(log, (r: Row) => !QuietHit(r)) ==>
              RowsSatisfy(Reach(c, Opened(log), ops).log, (r: Row) => !QuietHit(r))
    ensures NoRevokedAlert(ops) && RowsSatisfy(log, (r: Row) => !MandateHit(r)) ==>
              RowsSatisfy(Reach(c, Opened(log), ops).log, (r: Row) => !MandateHit(r))
  {
    hide Reach, RowsSatisfy, Allowed, WellClassified, IsQuietStamp;
    var fraud, quiet, mandate := (r: Row) => !FraudHit(r), (r: Row) => !QuietHit(r), (r: Row) => !MandateHit(r);
    if RowsSatisfy(log, fraud) {
      forall i | 0 <= i < |ops| && ops[i].Start? ensures StartAllowed(ops[i], fraud) {
        forall t | t in ops[i].batch { TaskIsAllowed(ops[i].env, t, fraud); }
      }
      ReachableRowsSatisfy(c, log, ops, fraud);
    }
    if TimesAreSet(ops) && RowsSatisfy(log, quiet) {
      forall i | 0 <= i < |ops| && ops[i].Start? ensures StartAllowed(ops[i], quiet) {
        forall t | t in ops[i].batch { TaskIsAllowed(ops[i].env, t, quiet); }
      }
      ReachableRowsSatisfy(c, log, ops, quiet);
    }
    if NoRevokedAlert(ops) && RowsSatisfy(log, mandate) {
      forall i | 0 <= i < |ops| && ops[i].Start? ensures StartAllowed(ops[i], mandate) {
        forall t | t in ops[i].batch { TaskIsAllowed(ops[i].env, t, mandate); }
      }
      ReachableRowsSatisfy(c, log, ops, mandate);
    }
  }

  // ---------- the row grammar ----------

  /** The rows of a started event in a reachable log are a prefix of rows that the
      grammar accepts - all of them once its worker is through - and once one is
      terminal all later ones have the same state. */
  lemma GrammarHoldsConcurrently(c: Crypto, log: seq<Entry>, ops: seq<Op>, i: nat)
    requires Sound(c) && ValidChain(c, log)
    requires i < |Reach(c, Opened(log), ops).wins| && Reach(c, Opened(log), ops).wins[i].done > 0
    ensures var s := Reach(c, Opened(log), ops);
            var win := s.wins[i];
            var rows, full := Filter(RowsOf(s.log), EventRow(win.Id())), RowsOfSteps(win.Trace().steps);
            && rows <= full && Accepts(full, 0, win.Trace().end)
            && (win.done == |win.Plan()| ==> Accepts(rows, 0, win.Trace().end))
            && forall j, k :: 0 <= j <= k < |rows| && IsTerminalState(rows[j].state) ==> rows[k].state == rows[j].state
  {
    hide Reach, RunFrom, Filter, EventRow, Accepts, RowsOfSteps, Win.Plan, ValidChain, MachineOf;
    var s := Reach(c, Opened(log), ops);
    var win := s.wins[i];
    LogShowsOneRun(c, log, ops, i);
    TraceGrammar(win.env, win.task, win.base, win.left);
    var rows, full := Filter(RowsOf(s.log), EventRow(win.Id())), RowsOfSteps(win.Trace().steps);
    forall j, k | 0 <= j <= k < |rows| && IsTerminalState(rows[j].state) ensures rows[k].state == rows[j].state {
      TerminalIsFinal(full, 0, win.Trace().end, j, k);
    }
  }
}
