/** Raising a limit never loses a recovery, as long as no customer has two events of
    touch-capped flows (go/rz/engines.go:14-162, go/rz/rules.go:45-157,
    go/rz/runner.go:98-164). */
module Monotonicity {
  import opened Types
  import opened Classify
  import opened Rules
  import opened Engines
  import opened Execution
  import opened Loop
  import opened Runner
  import opened Bounds
  import opened Isolation
  import opened Policy
  import opened Quota
  import opened Forecast
  import Dominance
  import Grammar
  import opened Metrics
  import opened Settlement

  /** `q` is `p` with some of the six limits raised. */
  predicate Raised(p: Tunables, q: Tunables) {
    && p.maxRetryAttempts <= q.maxRetryAttempts && p.maxTouchesPerCustomer <= q.maxTouchesPerCustomer
    && p.checkoutReminderCap <= q.checkoutReminderCap && p.maxVoiceCalls <= q.maxVoiceCalls
    && p.mandateWindowDays <= q.mandateWindowDays && p.receivableTier2Days <= q.receivableTier2Days
    && p.cartIncentiveThreshold == q.cartIncentiveThreshold && p.ptpSupervisorThreshold == q.ptpSupervisorThreshold
  }

  // ---------- one turn ----------

  lemma TierStaysRemindable(p: Tunables, q: Tunables, days: int)
    requires Raised(p, q) && 1 <= ReceivableTier(p, days) <= 2
    ensures 1 <= ReceivableTier(q, days) <= 2
  {
  }

  /** Where `p` touches a customer `q` does too, and both recover by decision alone
      in the same situations. */
  lemma DecisionsAreMonotone(p: Tunables, q: Tunables, c: Clock, t: Task, k: nat, touches: nat)
    requires Raised(p, q)
    ensures var d, e := Decide(p, c, t, k, touches), Decide(q, c, t, k, touches);
            && (d.decision in {Retry, Contact} ==> e.decision == d.decision)
            && (d.decision == Recover ==> e == d)
  {
    hide DecideMandateRetry, DecideFailedSubscription, ReceivableTier, PtpReminderDue, IsDoNotCall;
    if 1 <= ReceivableTier(p, t.overdueDays) <= 2 {
      TierStaysRemindable(p, q, t.overdueDays);
    }
    RetriesAreMonotone(p, q, c, Input(t, k, touches, 0));
  }

  lemma RetriesAreMonotone(p: Tunables, q: Tunables, c: Clock, i: Input)
    requires Raised(p, q)
    ensures DecideFailedSubscription(p, c, i).decision == Retry ==>
              DecideFailedSubscription(q, c, i).decision == Retry
    ensures DecideMandateRetry(p, c, i).decision == Retry ==> DecideMandateRetry(q, c, i).decision == Retry
    ensures DecideFailedSubscription(p, c, i).decision !in {Contact, Recover}
    ensures DecideMandateRetry(p, c, i).decision !in {Contact, Recover}
  {
  }

  /** Turn `b` goes on whenever `a` does, and recovers with the same rows. */
  predicate Follows(a: Turn, b: Turn) {
    && (a.next.None? ==> b.next.None? && forall r :: r in StepRows(a.step) ==> !r.state.Recovered?)
    && (a.next == Some(Recovered) ==>
          (b.next == a.next && forall r :: r in StepRows(a.step) && r.state.Recovered? ==> r in StepRows(b.step)))
  }

  lemma ActingFollows(env: Env, t: Task, k: nat, d: RuleDecision, e: RuleDecision)
    requires d.decision in {Retry, Contact} && !t.flow.OtherFlow? && e.decision == d.decision
    ensures Follows(ActOn(env, t, k, d), ActOn(env, t, k, e))
  {
  }

  /** Acting never depends on the tunables, and only touching goes on. */
  lemma ActOnFacts(env: Env, other: Env, t: Task, k: nat, d: RuleDecision)
    requires d.decision in {Retry, Contact} ==> !t.flow.OtherFlow?
    requires other == env.(tun := other.tun)
    ensures ActOn(env, t, k, d) == ActOn(other, t, k, d)
    ensures d.decision !in {Retry, Contact, Recover} ==>
              ActOn(env, t, k, d).next.Some? && ActOn(env, t, k, d).next != Some(Recovered)
    ensures d.decision == Recover ==> ActOn(env, t, k, d).next == Some(Recovered)
  {
  }

  /** Turn by turn, the second machine follows the first on this task. */
  ghost predicate FollowsOn(m: Machine, n: Machine, t: Task) {
    forall k: nat, touches: nat :: Follows(m.turn(t, k, touches), n.turn(t, k, touches))
  }

  lemma RaisedMachineFollows(env: Env, q: Tunables, t: Task)
    requires Raised(env.tun, q)
    ensures FollowsOn(MachineOf(env), MachineOf(env.(tun := q)), t)
  {
    hide Follows, ActOn, Decide, Raised, MachineOf;
    var other := env.(tun := q);
    forall k: nat, touches: nat
      ensures Follows(MachineOf(env).turn(t, k, touches), MachineOf(other).turn(t, k, touches))
    {
      var d, e := Decide(env.tun, env.clock, t, k, touches), Decide(q, env.clock, t, k, touches);
      DecisionsAreMonotone(env.tun, q, env.clock, t, k, touches);
      TurnActsOnDecision(env, t, k, touches);
      TurnActsOnDecision(other, t, k, touches);
      ActOnFacts(env, other, t, k, d);
      ActOnFacts(env, other, t, k, e);
      if d.decision in {Retry, Contact} {
        ActingFollows(env, t, k, d, e);
      } else {
        EndsFollow(ActOn(env, t, k, d), ActOn(env, t, k, e), d.decision == Recover);
      }
    }
  }

  lemma EndsFollow(a: Turn, b: Turn, recovers: bool)
    requires a.next.Some? && (recovers ==> a == b) && (!recovers ==> a.next != Some(Recovered))
    ensures Follows(a, b)
  {
  }

  // ---------- one event ----------

  /** Rows showing a recovery. */
  predicate KeepsRecoveries(a: seq<Row>, b: seq<Row>) {
    forall r :: r in a && r.state.Recovered? ==> r in b
  }

  /** An event that recovers under `m` recovers at the same attempt under `n`. */
  lemma {:induction false} RecoverySurvives(m: Machine, n: Machine, t: Task, base: nat, k: nat, left: int, left': int)
    requires FollowsOn(m, n, t) && k <= GUARD
    requires RunFrom(m, t, base, k, left).end == Finished(Recovered)
    requires !RunFrom(n, t, base, k, left').end.BudgetCut?
    ensures var a, b := RunFrom(m, t, base, k, left), RunFrom(n, t, base, k, left');
            && b.end == Finished(Recovered) && |a.steps| == |b.steps|
            && KeepsRecoveries(RowsOfSteps(a.steps), RowsOfSteps(b.steps))
    decreases GUARD - k
  {
    var a, b := RunFrom(m, t, base, k, left), RunFrom(n, t, base, k, left');
    var x, y := m.turn(t, k, base + k), n.turn(t, k, base + k);
    assert Follows(x, y);
    hide FollowsOn, StepRows;
    if x.next.None? {
      RecoverySurvives(m, n, t, base, k + 1, left - 1, left' - 1);
      assert a.steps[1..] == RunFrom(m, t, base, k + 1, left - 1).steps;
      assert b.steps[1..] == RunFrom(n, t, base, k + 1, left' - 1).steps;
    } else {
      assert a.steps == [x.step] && b.steps == [y.step];
    }
  }

  // ---------- flows without a cap ----------

  /** The event's turns depend neither on the touches nor on which of the two
      machines takes them. */
  ghost predicate TurnsAlike(m: Machine, n: Machine, t: Task) {
    forall k: nat, u: nat, v: nat :: m.turn(t, k, u) == n.turn(t, k, v)
  }

  /** The other flows read neither the touch counter nor any of the six limits. */
  lemma UncappedDecidesAlike(p: Tunables, q: Tunables, c: Clock, t: Task, k: nat, u: nat, v: nat)
    requires Raised(p, q) && !TouchCapped(t)
    ensures Decide(p, c, t, k, u) == Decide(q, c, t, k, v)
  {
  }

  lemma UncappedTurnsAlike(env: Env, q: Tunables, t: Task)
    requires Raised(env.tun, q) && !TouchCapped(t)
    ensures TurnsAlike(MachineOf(env), MachineOf(env.(tun := q)), t)
  {
    hide ActOn, Decide, Raised, MachineOf, TouchCapped;
    var other := env.(tun := q);
    forall k: nat, u: nat, v: nat ensures MachineOf(env).turn(t, k, u) == MachineOf(other).turn(t, k, v) {
      var d := Decide(env.tun, env.clock, t, k, u);
      UncappedDecidesAlike(env.tun, q, env.clock, t, k, u, v);
      TurnActsOnDecision(env, t, k, u);
      TurnActsOnDecision(other, t, k, v);
      ActOnFacts(env, other, t, k, d);
    }
  }

  lemma {:induction false} TracesAlike(m: Machine, n: Machine, t: Task, base: nat, base': nat, k: nat, left: int)
    requires TurnsAlike(m, n, t) && k <= GUARD
    ensures RunFrom(m, t, base, k, left) == RunFrom(n, t, base', k, left)
    decreases GUARD - k
  {
    if k < GUARD && left > 0 {
      assert m.turn(t, k, base + k) == n.turn(t, k, base' + k);
      hide TurnsAlike;
      if m.turn(t, k, base + k).next.None? {
        TracesAlike(m, n, t, base, base', k + 1, left - 1);
      }
    }
  }

  /** So their traces agree, unless the budget cuts one of them. */
  lemma UncutTracesAlike(m: Machine, n: Machine, t: Task, base: nat, base': nat, left: int, left': int)
    requires TurnsAlike(m, n, t)
    requires !RunFrom(m, t, base, 0, left).end.BudgetCut? && !RunFrom(n, t, base', 0, left').end.BudgetCut?
    ensures RunFrom(m, t, base, 0, left) == RunFrom(n, t, base', 0, left')
  {
    hide RunFrom, TurnsAlike;
    TracesAlike(m, n, t, base, base', 0, left);
    if left <= left' {
      MoreBudget(n, t, base', 0, left, left');
    } else {
      MoreBudget(n, t, base', 0, left', left);
    }
  }

  // ---------- one batch ----------

  /** No customer has two different events of touch-capped flows; redeliveries, and
      any number of other events, are allowed. */
  predicate OneCappedEventPerCustomer(tasks: seq<Task>) {
    forall i, j | 0 <= i < |tasks| && 0 <= j < |tasks| && tasks[i].customerId == tasks[j].customerId ::
      TouchCapped(tasks[i]) && TouchCapped(tasks[j]) ==> tasks[i].eventId == tasks[j].eventId
  }

  /** The two runs agree on the claims, and on the touches of every customer with a
      touch-capped event still to be driven. */
  predicate InStep(tasks: seq<Task>, b: Book, c: Book) {
    && b.claimed == c.claimed
    && forall t :: t in tasks && TouchCapped(t) && t.eventId !in b.claimed ==>
         b.TouchesOf(t.customerId) == c.TouchesOf(t.customerId)
  }

  lemma StaysInStep(tasks: seq<Task>, b: Book, c: Book, d: Delivery, e: Delivery)
    requires tasks != [] && OneCappedEventPerCustomer(tasks) && InStep(tasks, b, c)
    requires d.Fresh? && e.Fresh? && d.task == e.task == tasks[0]
    requires !TouchCapped(tasks[0]) ==> d.trace == e.trace
    ensures OneCappedEventPerCustomer(tasks[1..]) && InStep(tasks[1..], Loop.After(b, d), Loop.After(c, e))
  {
    hide TouchCapped, Executions;
    var b', c' := Loop.After(b, d), Loop.After(c, e);
    forall t | t in tasks[1..] && TouchCapped(t) && t.eventId !in b'.claimed
      ensures b'.TouchesOf(t.customerId) == c'.TouchesOf(t.customerId)
    {
      var i :| 0 <= i < |tasks[1..]| && tasks[1..][i] == t;
      assert tasks[i + 1] == t && t in tasks;
    }
  }

  lemma TailIsInStep(tasks: seq<Task>, b: Book, c: Book)
    requires tasks != [] && OneCappedEventPerCustomer(tasks) && InStep(tasks, b, c)
    ensures OneCappedEventPerCustomer(tasks[1..]) && InStep(tasks[1..], b, c)
  {
    hide TouchCapped;
    assert forall i :: 0 <= i < |tasks[1..]| ==> tasks[1..][i] == tasks[i + 1];
  }

  /** The delivery of a recovered event under the lower limits, and under the
      higher ones. */
  predicate RecoveredAlike(d: Delivery, e: Delivery) {
    IsSettled(d, Recovered) ==>
      (IsSettled(e, Recovered) && |e.trace.steps| == |d.trace.steps|
       && KeepsRecoveries(DeliveryRows(d), DeliveryRows(e)))
  }

  /** One fresh event under both machines, from books that are in step. */
  lemma FreshAlike(env: Env, q: Tunables, tasks: seq<Task>, b: Book, c: Book)
    requires Raised(env.tun, q) && tasks != [] && OneCappedEventPerCustomer(tasks) && InStep(tasks, b, c)
    requires tasks[0].eventId !in b.claimed
    requires !Drive(MachineOf(env), tasks[0], b).trace.end.BudgetCut?
    requires !Drive(MachineOf(env.(tun := q)), tasks[0], c).trace.end.BudgetCut?
    ensures var d, e := Drive(MachineOf(env), tasks[0], b), Drive(MachineOf(env.(tun := q)), tasks[0], c);
            && RecoveredAlike(d, e)
            && OneCappedEventPerCustomer(tasks[1..]) && InStep(tasks[1..], Loop.After(b, d), Loop.After(c, e))
  {
    hide RunFrom, MachineOf, Raised, FollowsOn, TurnsAlike, RowsOfSteps, TouchCapped, OneCappedEventPerCustomer,
         KeepsRecoveries, Executions, Loop.After;
    var m, n, t := MachineOf(env), MachineOf(env.(tun := q)), tasks[0];
    var d, e := Drive(m, t, b), Drive(n, t, c);
    if TouchCapped(t) {
      assert t in tasks && d.base == e.base;
      RaisedMachineFollows(env, q, t);
      if IsSettled(d, Recovered) {
        RecoverySurvives(m, n, t, d.base, 0, d.left, e.left);
      }
    } else {
      UncappedTurnsAlike(env, q, t);
      UncutTracesAlike(m, n, t, d.base, e.base, d.left, e.left);
      KeepsItself(RowsOfSteps(d.trace.steps));
    }
    StaysInStep(tasks, b, c, d, e);
  }

  lemma KeepsItself(rows: seq<Row>)
    ensures KeepsRecoveries(rows, rows)
  {
  }

  predicate AllRecoveredAlike(a: seq<Delivery>, b: seq<Delivery>) {
    |a| == |b| && forall i :: 0 <= i < |a| ==> RecoveredAlike(a[i], b[i])
  }

  lemma AlikeFirst(d: Delivery, e: Delivery, a: seq<Delivery>, b: seq<Delivery>)
    requires RecoveredAlike(d, e) && AllRecoveredAlike(a, b)
    ensures AllRecoveredAlike([d] + a, [e] + b)
  {
    hide RecoveredAlike;
  }

  /** How the run of a non-empty batch within its limit begins. */
  lemma WithinLimit(m: Machine, tasks: seq<Task>, b: Book)
    requires tasks != [] && !Process(m, tasks, b).limitHit
    ensures var t, run := tasks[0], Process(m, tasks, b);
            if t.eventId in b.claimed then
              && !Process(m, tasks[1..], b).limitHit
              && run.deliveries == [Duplicate(t, DuplicateRow(m.now, t))] + Process(m, tasks[1..], b).deliveries
            else
              var d := Drive(m, t, b);
              && !d.trace.end.BudgetCut? && !Process(m, tasks[1..], Loop.After(b, d)).limitHit
              && run.deliveries == [d] + Process(m, tasks[1..], Loop.After(b, d)).deliveries
  {
    hide Drive;
  }

  lemma {:induction false} BatchesAlike(env: Env, q: Tunables, tasks: seq<Task>, b: Book, c: Book)
    requires Raised(env.tun, q) && OneCappedEventPerCustomer(tasks) && InStep(tasks, b, c)
    requires !Process(MachineOf(env), tasks, b).limitHit && !Process(MachineOf(env.(tun := q)), tasks, c).limitHit
    ensures AllRecoveredAlike(Process(MachineOf(env), tasks, b).deliveries,
                              Process(MachineOf(env.(tun := q)), tasks, c).deliveries)
    decreases tasks
  {
    hide RunFrom, MachineOf, Raised, OneCappedEventPerCustomer, InStep, RecoveredAlike, AllRecoveredAlike;
    var m, n := MachineOf(env), MachineOf(env.(tun := q));
    if tasks == [] {
      NothingAlike();
    } else {
      hide Process;
      WithinLimit(m, tasks, b);
      WithinLimit(n, tasks, c);
      SameClaims(tasks, b, c);
      if tasks[0].eventId in b.claimed {
        TailIsInStep(tasks, b, c);
        BatchesAlike(env, q, tasks[1..], b, c);
        MarkersAlike(m, n, tasks[0]);
        AlikeFirst(Duplicate(tasks[0], DuplicateRow(m.now, tasks[0])),
                   Duplicate(tasks[0], DuplicateRow(n.now, tasks[0])),
                   Process(m, tasks[1..], b).deliveries, Process(n, tasks[1..], c).deliveries);
      } else {
        var d, e := Drive(m, tasks[0], b), Drive(n, tasks[0], c);
        FreshAlike(env, q, tasks, b, c);
        BatchesAlike(env, q, tasks[1..], Loop.After(b, d), Loop.After(c, e));
        AlikeFirst(d, e, Process(m, tasks[1..], Loop.After(b, d)).deliveries,
                   Process(n, tasks[1..], Loop.After(c, e)).deliveries);
      }
    }
  }

  lemma NothingAlike()
    ensures AllRecoveredAlike([], [])
  {
  }

  lemma SameClaims(tasks: seq<Task>, b: Book, c: Book)
    requires InStep(tasks, b, c)
    ensures b.claimed == c.claimed
  {
  }

  lemma MarkersAlike(m: Machine, n: Machine, t: Task)
    ensures RecoveredAlike(Duplicate(t, DuplicateRow(m.now, t)), Duplicate(t, DuplicateRow(n.now, t)))
  {
  }

  /** Raising limits never loses a recovery: when neither run hits its batch limit
      and no customer has two events of touch-capped flows, every event that
      recovers recovers again, at the same attempt, with the same rows. */
  lemma RaisingLimitsLosesNothing(env: Env, q: Tunables, tasks: seq<Task>, claimed: set<string>, maxP: int, maxQ: int)
    requires Raised(env.tun, q) && OneCappedEventPerCustomer(tasks)
    requires !Process(MachineOf(env), tasks, Opening(claimed, maxP)).limitHit
    requires !Process(MachineOf(env.(tun := q)), tasks, Opening(claimed, maxQ)).limitHit
    ensures AllRecoveredAlike(Process(MachineOf(env), tasks, Opening(claimed, maxP)).deliveries,
                              Process(MachineOf(env.(tun := q)), tasks, Opening(claimed, maxQ)).deliveries)
  {
    hide Process, MachineOf, Raised, OneCappedEventPerCustomer, AllRecoveredAlike;
    BatchesAlike(env, q, tasks, Opening(claimed, maxP), Opening(claimed, maxQ));
  }

  lemma {:induction false} RecoveredSums(a: seq<Delivery>, b: seq<Delivery>)
    requires |a| == |b|
    requires forall i :: 0 <= i < |a| ==>
               RecoveredAlike(a[i], b[i]) && a[i].task == b[i].task && a[i].task.amount >= 0
    ensures Sum(a, SettledIn(Recovered)) <= Sum(b, SettledIn(Recovered))
    ensures Sum(a, RecoveredOf()) <= Sum(b, RecoveredOf())
  {
    hide KeepsRecoveries;
    if a != [] {
      RecoveredSums(a[1..], b[1..]);
    }
  }

  /** In the terms of the reports: the recovered count and the recovered amount can
      only grow. */
  lemma RaisingLimitsImprovesMetrics(env: Env, q: Tunables, tasks: seq<Task>, claimed: set<string>, maxP: int,
                                     maxQ: int)
    requires Raised(env.tun, q) && OneCappedEventPerCustomer(tasks)
    requires forall t :: t in tasks ==> t.amount >= 0
    requires !Process(MachineOf(env), tasks, Opening(claimed, maxP)).limitHit
    requires !Process(MachineOf(env.(tun := q)), tasks, Opening(claimed, maxQ)).limitHit
    ensures var before := MetricsOf(RunRows(MachineOf(env), tasks, Opening(claimed, maxP)));
            var after := MetricsOf(RunRows(MachineOf(env.(tun := q)), tasks, Opening(claimed, maxQ)));
            before.recoveredCount <= after.recoveredCount && before.recoveredAmount <= after.recoveredAmount
  {
    hide Process, MachineOf, Raised, OneCappedEventPerCustomer, RecoveredAlike, MetricsOf, RunRows, Sum;
    var m, n := MachineOf(env), MachineOf(env.(tun := q));
    RaisingLimitsLosesNothing(env, q, tasks, claimed, maxP, maxQ);
    MetricsTellTheRun(env, tasks, Opening(claimed, maxP));
    MetricsTellTheRun(env.(tun := q), tasks, Opening(claimed, maxQ));
    DeliveriesAre(m, tasks, Opening(claimed, maxP));
    DeliveriesAre(n, tasks, Opening(claimed, maxQ));
    RecoveredSums(Process(m, tasks, Opening(claimed, maxP)).deliveries,
                  Process(n, tasks, Opening(claimed, maxQ)).deliveries);
  }

  // ---------- exactly when, for every batch ----------

  /** The attempt of an event's first success. */
  function Success(env: Env, t: Task): nat { FirstSuccess(env.draw, t, 0) }

  /** The higher limits still let the customer be touched at the attempt at which
      the event succeeds, whatever the other events took. */
  predicate StillHasRoom(env: Env, q: Tunables, d: Delivery, e: Delivery) {
    d.Fresh? && e.Fresh? && TouchCapped(d.task) && IsSettled(d, Recovered) ==>
      MayTouch(q, env.clock, d.task, Success(env, d.task), e.base + Success(env, d.task))
  }

  /** An uncut event of a touch-capped flow recovers exactly when its first success
      is below the guard and its customer may be touched then. */
  lemma {:induction false} CappedRecoversExactlyWhen(env: Env, t: Task, base: nat, left: nat)
    requires TouchCapped(t) && !RunFrom(MachineOf(env), t, base, 0, left).end.BudgetCut?
    ensures var tr, f := RunFrom(MachineOf(env), t, base, 0, left), Success(env, t);
            && (tr.end == Finished(Recovered) <==> f < GUARD && MayTouch(env.tun, env.clock, t, f, base + f))
            && (tr.end == Finished(Recovered) ==> ByTouch(tr) && |tr.steps| == f + 1)
  {
    hide MachineOf, RunFrom, FirstSuccess, MayTouch, Quota.Quota, TouchCapped, Executions, StepsAre, GoesOn, WellFormed;
    var m, tr, f := MachineOf(env), RunFrom(MachineOf(env), t, base, 0, left), Success(env, t);
    ExactExecutions(env, t, base, left);
    TraceShape(m, t, base, 0, left);
    MachineIsWellFormed(env);
    StepsExecuted(m, t, base, 0, left);
    if tr.end == Finished(Recovered) {
      Dominance.CappedRecoveryIsByTouch(env, t, base, left);
      TouchedBelowQuota(env, t, base, f);
    } else if f < GUARD {
      TouchedBelowQuota(env, t, base, f);
      TouchEndsRecovered(env, t, base, left);
    }
  }

  /** All steps of a trace but the last were executed, and so was the last one of a
      trace that was cut. */
  lemma {:induction false} StepsExecuted(m: Machine, t: Task, base: nat, k: nat, left: nat)
    requires WellFormed(m) && k <= GUARD
    ensures var tr := RunFrom(m, t, base, k, left);
            var n := |tr.steps|;
            && (tr.end.Finished? ==> n > 0 && Executions(tr.steps) == n - (if tr.steps[n - 1].executed then 0 else 1))
            && (!tr.end.Finished? ==> Executions(tr.steps) == n)
    decreases GUARD - k
  {
    if k < GUARD && left > 0 {
      var turn := m.turn(t, k, base + k);
      TurnsAreWellFormed(m, t, k, base + k);
      hide WellFormed;
      var tr := RunFrom(m, t, base, k, left);
      if turn.next.None? {
        StepsExecuted(m, t, base, k + 1, left - 1);
        assert tr.steps[1..] == RunFrom(m, t, base, k + 1, left - 1).steps;
      } else {
        assert tr.steps == [turn.step] && tr.steps[1..] == [];
      }
    }
  }

  /** The last step's rows are among the rows, and every recovered row is one of them. */
  predicate RecoversLast(steps: seq<Step>) {
    && (steps != [] ==> forall r :: r in StepRows(steps[|steps| - 1]) ==> r in RowsOfSteps(steps))
    && forall r :: r in RowsOfSteps(steps) && r.state.Recovered? ==>
         steps != [] && r in StepRows(steps[|steps| - 1])
  }

  lemma NoneRecoversLast()
    ensures RecoversLast([])
  {
  }

  lemma OneRecoversLast(s: Step)
    ensures RecoversLast([s])
  {
    hide StepRows;
    assert [s][1..] == [];
    assert RowsOfSteps([s]) == StepRows(s) + [];
  }

  lemma MoreRecoversLast(s: Step, rest: seq<Step>)
    requires RecoversLast(rest) && rest != []
    requires forall r :: r in StepRows(s) ==> !r.state.Recovered?
    ensures RecoversLast([s] + rest)
  {
    hide StepRows;
    var steps := [s] + rest;
    assert steps[0] == s && steps[1..] == rest && steps[|steps| - 1] == rest[|rest| - 1];
    assert RowsOfSteps(steps) == StepRows(s) + RowsOfSteps(rest);
  }

  /** The recovered rows of an event are rows of its last step. */
  lemma {:induction false} RecoveredRowsAreLast(env: Env, t: Task, base: nat, k: nat, left: int)
    requires k <= GUARD
    ensures RecoversLast(RunFrom(MachineOf(env), t, base, k, left).steps)
    decreases GUARD - k
  {
    hide MachineOf, StepRows, RunFrom, RecoversLast;
    var m := MachineOf(env);
    TraceUnfolds(m, t, base, k, left);
    NoneRecoversLast();
    if k < GUARD && left > 0 {
      var turn := m.turn(t, k, base + k);
      OneRecoversLast(turn.step);
      if turn.next.None? {
        var rest := RunFrom(m, t, base, k + 1, left - 1).steps;
        GoingOnIsNotRecovered(env, t, k, base + k);
        RecoveredRowsAreLast(env, t, base, k + 1, left - 1);
        if rest == [] {
          assert [turn.step] + rest == [turn.step];
        } else {
          MoreRecoversLast(turn.step, rest);
        }
      }
    }
  }

  lemma GoingOnIsNotRecovered(env: Env, t: Task, k: nat, touches: nat)
    ensures var turn := MachineOf(env).turn(t, k, touches);
            turn.next.None? ==> forall r :: r in StepRows(turn.step) ==> !r.state.Recovered?
  {
    Grammar.TurnGrammar(env, t, k, touches);
    hide TakeTurn, StepRows;
  }

  /** Two executed touches of one event at one attempt write the same recovered rows. */
  lemma SameAttemptSameRows(env: Env, q: Tunables, t: Task, k: nat, u: nat, v: nat)
    requires MachineOf(env).turn(t, k, u).step.executed && MachineOf(env.(tun := q)).turn(t, k, v).step.executed
    ensures Follows(MachineOf(env).turn(t, k, u), MachineOf(env.(tun := q)).turn(t, k, v))
  {
    hide Follows, ActOn, Decide, MachineOf, ExecuteAction;
    var other := env.(tun := q);
    var d, e := Decide(env.tun, env.clock, t, k, u), Decide(q, env.clock, t, k, v);
    TurnExecutes(env, t, k, u);
    TurnExecutes(other, t, k, v);
    TurnActsOnDecision(env, t, k, u);
    TurnActsOnDecision(other, t, k, v);
    FlowFixesTheTouch(env.tun, q, env.clock, t, k, u, v);
    ActOnFacts(env, other, t, k, e);
    ActingFollows(env, t, k, d, e);
  }

  /** A flow either retries or contacts. */
  lemma FlowFixesTheTouch(p: Tunables, q: Tunables, c: Clock, t: Task, k: nat, u: nat, v: nat)
    requires Acts(p, c, t, k, u) && Acts(q, c, t, k, v)
    ensures Decide(p, c, t, k, u).decision == Decide(q, c, t, k, v).decision
  {
    hide IsDoNotCall, ReceivableTier, MandateRetryAttemptAllowed, IsWithinMandateRetryWindow;
  }

  lemma BothRecoverAlike(env: Env, q: Tunables, t: Task, d: Delivery, e: Delivery)
    requires Raised(env.tun, q) && TouchCapped(t)
    requires d.Fresh? && e.Fresh? && IsDelivery(MachineOf(env), t, d) && IsDelivery(MachineOf(env.(tun := q)), t, e)
    requires IsSettled(d, Recovered) && !e.trace.end.BudgetCut?
    ensures RecoveredAlike(d, e) <==> StillHasRoom(env, q, d, e)
  {
    hide MachineOf, RunFrom, FirstSuccess, MayTouch, TouchCapped, Raised, RowsOfSteps, StepRows, Follows;
    var other := env.(tun := q);
    var f := Success(env, t);
    CappedRecoversExactlyWhen(env, t, d.base, d.left);
    CappedRecoversExactlyWhen(other, t, e.base, e.left);
    assert Success(other, t) == f;
    if IsSettled(e, Recovered) {
      TraceShape(MachineOf(env), t, d.base, 0, d.left);
      TraceShape(MachineOf(other), t, e.base, 0, e.left);
      assert d.trace.steps[f] == TurnAt(MachineOf(env), t, d.base, f).step;
      assert e.trace.steps[f] == TurnAt(MachineOf(other), t, e.base, f).step;
      SameAttemptSameRows(env, q, t, f, d.base + f, e.base + f);
      RecoveredRowsAreLast(env, t, d.base, 0, d.left);
      RecoveredRowsAreLast(other, t, e.base, 0, e.left);
      RecoveredTurnsKeep(TurnAt(MachineOf(env), t, d.base, f), TurnAt(MachineOf(other), t, e.base, f));
    }
  }

  lemma RecoveredTurnsKeep(a: Turn, b: Turn)
    requires Follows(a, b) && a.next == Some(Recovered)
    ensures KeepsRecoveries(StepRows(a.step), StepRows(b.step))
  {
  }

  /** What raising the limits leaves event `i`, read off the batch: if it is the first
      claim of its id in a touch-capped flow, and its customer may be touched at the
      attempt at which it succeeds after what the lower limits spent before it, then
      so they may under the higher limits after what those spent. */
  predicate RoomIsKeptAt(env: Env, q: Tunables, tasks: seq<Task>, bp: Book, bq: Book, i: nat)
    requires i < |tasks|
  {
    var t, f := tasks[i], Success(env, tasks[i]);
    var p, r := BookBefore(env, tasks, bp, i), BookBefore(env.(tun := q), tasks, bq, i);
    FirstOf(tasks, i, bp.claimed) && TouchCapped(t) && f < GUARD
      && MayTouch(env.tun, env.clock, t, f, p.TouchesOf(t.customerId) + f)
    ==> MayTouch(q, env.clock, t, f, r.TouchesOf(t.customerId) + f)
  }

  /** For every batch within both limits, shared customers included: raising limits
      keeps an event's recovery exactly when the touches foretold for its customer
      still leave room at the attempt at which it succeeds. Events of uncapped flows
      never lose theirs. */
  lemma {:induction false} RecoveriesAreKeptExactlyWhen(env: Env, q: Tunables, tasks: seq<Task>, claimed: set<string>,
                                                        maxP: int, maxQ: int)
    requires Raised(env.tun, q)
    requires !Foretell(env, tasks, Opening(claimed, maxP)).limitHit
    requires !Foretell(env.(tun := q), tasks, Opening(claimed, maxQ)).limitHit
    ensures var bp, bq := Opening(claimed, maxP), Opening(claimed, maxQ);
            var a, b := Process(MachineOf(env), tasks, bp).deliveries,
                        Process(MachineOf(env.(tun := q)), tasks, bq).deliveries;
            && |a| == |b| == |tasks|
            && forall i :: 0 <= i < |tasks| ==> (RecoveredAlike(a[i], b[i]) <==> RoomIsKeptAt(env, q, tasks, bp, bq, i))
  {
    hide Process, MachineOf, Raised, IsDelivery, RecoveredAlike, FirstOf, StillHasRoom, RoomIsKeptAt, Foretell;
    var m, n := MachineOf(env), MachineOf(env.(tun := q));
    var bp, bq := Opening(claimed, maxP), Opening(claimed, maxQ);
    var a, b := Process(m, tasks, bp).deliveries, Process(n, tasks, bq).deliveries;
    BatchIsForetold(env, tasks, bp);
    BatchIsForetold(env.(tun := q), tasks, bq);
    FirstClaimDrives(m, tasks, bp);
    FirstClaimDrives(n, tasks, bq);
    DeliveriesAre(m, tasks, bp);
    DeliveriesAre(n, tasks, bq);
    FreshIsNeverCut(m, tasks, bp);
    FreshIsNeverCut(n, tasks, bq);
    forall i | 0 <= i < |tasks| ensures RecoveredAlike(a[i], b[i]) <==> RoomIsKeptAt(env, q, tasks, bp, bq, i) {
      PairsAlike(env, q, tasks[i], a[i], b[i]);
      RoomIsForetold(env, q, tasks, bp, bq, i);
    }
  }

  lemma {:induction false} RoomIsForetold(env: Env, q: Tunables, tasks: seq<Task>, bp: Book, bq: Book, i: nat)
    requires i < |tasks| && bp.claimed == bq.claimed
    requires i < |Process(MachineOf(env), tasks, bp).deliveries|
    requires i < |Process(MachineOf(env.(tun := q)), tasks, bq).deliveries|
    requires var d := Process(MachineOf(env), tasks, bp).deliveries[i]; d.Fresh? ==> !d.trace.end.BudgetCut?
    ensures StillHasRoom(env, q, Process(MachineOf(env), tasks, bp).deliveries[i],
                         Process(MachineOf(env.(tun := q)), tasks, bq).deliveries[i])
            <==> RoomIsKeptAt(env, q, tasks, bp, bq, i)
  {
    hide Process, MachineOf, FirstOf, BookBefore, RunFrom, FirstSuccess, MayTouch, TouchCapped;
    var m, n, t := MachineOf(env), MachineOf(env.(tun := q)), tasks[i];
    var d, e := Process(m, tasks, bp).deliveries[i], Process(n, tasks, bq).deliveries[i];
    DeliveryIsForetold(env, tasks, bp, i);
    DeliveryIsForetold(env.(tun := q), tasks, bq, i);
    FirstClaimDrives(m, tasks, bp);
    FirstClaimDrives(n, tasks, bq);
    DeliveriesAre(m, tasks, bp);
    if d.Fresh? && TouchCapped(t) {
      CappedRecoversExactlyWhen(env, t, d.base, d.left);
    }
  }

  lemma {:induction false} FreshIsNeverCut(m: Machine, tasks: seq<Task>, b: Book)
    requires !Process(m, tasks, b).limitHit
    ensures forall d :: d in Process(m, tasks, b).deliveries && d.Fresh? ==> !d.trace.end.BudgetCut?
  {
    hide RunFrom, Executions, Touched;
    if tasks != [] {
      if tasks[0].eventId in b.claimed {
        FreshIsNeverCut(m, tasks[1..], b);
      } else if b.left > 0 {
        FreshIsNeverCut(m, tasks[1..], Loop.After(b, Drive(m, tasks[0], b)));
      }
    }
  }

  lemma PairsAlike(env: Env, q: Tunables, t: Task, d: Delivery, e: Delivery)
    requires Raised(env.tun, q) && IsDelivery(MachineOf(env), t, d) && IsDelivery(MachineOf(env.(tun := q)), t, e)
    requires d.Fresh? == e.Fresh?
    requires d.Fresh? ==> !d.trace.end.BudgetCut? && !e.trace.end.BudgetCut?
    ensures RecoveredAlike(d, e) <==> StillHasRoom(env, q, d, e)
  {
    hide MachineOf, RunFrom, FirstSuccess, MayTouch, TouchCapped, Raised, RowsOfSteps, KeepsRecoveries, TurnsAlike;
    if d.Fresh? && IsSettled(d, Recovered) {
      if TouchCapped(t) {
        BothRecoverAlike(env, q, t, d, e);
      } else {
        UncappedTurnsAlike(env, q, t);
        UncutTracesAlike(MachineOf(env), MachineOf(env.(tun := q)), t, d.base, e.base, d.left, e.left);
        KeepsItself(RowsOfSteps(d.trace.steps));
      }
    }
  }

  // ---------- two capped events of one customer ----------

  /** A failed charge of customer "c" for want of funds. */
  function FailedCharge(id: string): Task {
    Task(id, FailedSubscription, "c", 100, "INR", "", InsufficientFunds, None, 0, None, false, 0, 0, 0.0, false)
  }

  /** A touch cap of two, and the source's own generator. */
  function SharedCustomerEnv(retries: int): Env {
    Env(DEFAULT_TUNABLES.(maxRetryAttempts := retries, maxTouchesPerCustomer := 2),
        Clock(1788244200000, 1788244200000), SeededDraw())
  }

  /** Event "a" fails its first two attempts; event "c" succeeds at once. */
  lemma ChargeDraws()
    ensures SeededRandom("a", 0) >= 0.5 && SeededRandom("a", 1) >= 0.5 && SeededRandom("c", 0) < 0.5
  {
    assert CodeSum("a") == 97 && CodeSum("c") == 99 by { assert "a"[..0] == "" && "c"[..0] == ""; }
    hide SeededRandom, CodeSum;
    DrawIs("a", 0, 59, 4077198353);
    DrawIs("a", 1, 6223, 2586630262);
    DrawIs("c", 0, 61, 796135283);
  }

  lemma ChargeTurns(retries: int, k: nat, touches: nat)
    ensures var turn := MachineOf(SharedCustomerEnv(retries)).turn(FailedCharge("a"), k, touches);
            && turn.step.executed == (k < retries && touches < 2)
            && (!turn.step.executed ==> turn.next.Some? && turn.next != Some(Recovered))
            && (k < 2 && turn.step.executed ==> turn.next.None?)
    ensures MachineOf(SharedCustomerEnv(retries)).turn(FailedCharge("c"), 0, touches).next ==
            if 0 >= retries then Some(Escalated) else if touches >= 2 then Some(Abandoned) else Some(Recovered)
  {
    ChargeDraws();
    hide SeededRandom;
  }

  lemma FirstCharge(retries: int, left: int)
    requires 1 <= retries <= 2 && left > 2
    ensures var tr := RunFrom(MachineOf(SharedCustomerEnv(retries)), FailedCharge("a"), 0, 0, left);
            Executions(tr.steps) == retries && !tr.end.BudgetCut? && |tr.steps| == retries + 1
  {
    hide MachineOf;
    var m := MachineOf(SharedCustomerEnv(retries));
    ChargeTurns(retries, 0, 0);
    ChargeTurns(retries, 1, 1);
    ChargeTurns(retries, 2, 2);
    var two := RunFrom(m, FailedCharge("a"), 0, 2, left - 2);
    var one := RunFrom(m, FailedCharge("a"), 0, 1, left - 1);
    if retries == 2 {
      assert two.steps == [m.turn(FailedCharge("a"), 2, 2).step] && Executions(two.steps[1..]) == 0;
      assert one.steps == [m.turn(FailedCharge("a"), 1, 1).step] + two.steps && one.steps[1..] == two.steps;
    } else {
      assert one.steps == [m.turn(FailedCharge("a"), 1, 1).step] && Executions(one.steps[1..]) == 0;
    }
    var zero := RunFrom(m, FailedCharge("a"), 0, 0, left);
    assert zero.steps == [m.turn(FailedCharge("a"), 0, 0).step] + one.steps && zero.steps[1..] == one.steps;
  }

  /** With two capped events of one customer the guarantee fails, under the source's
      own generator: one more retry for the first event uses up the touch that
      recovered the second. */
  lemma SharedCustomerLosesARecovery(maxBatch: int)
    requires maxBatch > 10
    ensures Raised(SharedCustomerEnv(1).tun, SharedCustomerEnv(2).tun)
    ensures var tasks := [FailedCharge("a"), FailedCharge("c")];
            var before := Process(MachineOf(SharedCustomerEnv(1)), tasks, Opening({}, maxBatch));
            var after := Process(MachineOf(SharedCustomerEnv(2)), tasks, Opening({}, maxBatch));
            && !OneCappedEventPerCustomer(tasks)
            && !before.limitHit && !after.limitHit
            && |before.deliveries| == |after.deliveries| == 2
            && IsSettled(before.deliveries[1], Recovered) && IsSettled(after.deliveries[1], Abandoned)
  {
    var tasks := [FailedCharge("a"), FailedCharge("c")];
    assert tasks[0].eventId[0] != tasks[1].eventId[0];
    SecondCharge(1, maxBatch);
    SecondCharge(2, maxBatch);
    hide Process, MachineOf;
  }

  lemma SecondCharge(retries: int, maxBatch: int)
    requires 1 <= retries <= 2 && maxBatch > 10
    ensures var run := Process(MachineOf(SharedCustomerEnv(retries)), [FailedCharge("a"), FailedCharge("c")],
                               Opening({}, maxBatch));
            && !run.limitHit && |run.deliveries| == 2
            && IsSettled(run.deliveries[1], if retries == 1 then Recovered else Abandoned)
  {
    hide MachineOf;
    var m, a, c := MachineOf(SharedCustomerEnv(retries)), FailedCharge("a"), FailedCharge("c");
    var first := Opening({}, maxBatch);
    var d := Drive(m, a, first);
    FirstCharge(retries, maxBatch);
    ChargeTurns(retries, 0, retries);
    var second := Loop.After(first, d);
    assert second.TouchesOf("c") == retries && second.left > 0;
    assert "a" != "c";
    assert [a, c][1..] == [c] && [c][1..] == [];
    var e := Drive(m, c, second);
    assert e.trace.end == Finished(if retries == 1 then Recovered else Abandoned);
    hide RunFrom, FailedCharge, Executions;
    assert Process(m, [c], second).deliveries == [e];
  }
}
