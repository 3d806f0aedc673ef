/** The order in which README.md:77-80 says the retry engines check their rules,
    against the order of the code (go/rz/engines.go:14-36). */
module Order {
  import opened Types
  import opened Classify
  import opened Rules
  import opened Engines
  import opened Execution
  import opened Loop
  import opened Runner
  import opened Policy
  import opened Quota
  import opened Forecast

  /** Fraud, revoked mandate, touch cap, retry budget, promise. */
  function DocumentedBase(p: Tunables, c: Clock, i: Input): RuleDecision {
    if IsFraudFlagged(i.task.reason) then RuleDecision(RuleFraudSuppress, Suppress)
    else if IsMandateRevoked(i.task.reason) then RuleDecision(RuleMandateRevokedEsc, Escalate)
    else if AtTouchCap(p, i.touches) then RuleDecision(RuleMaxTouchesCap, Abandon)
    else if AtMaxRetryAttempts(p, i.attempt) then RuleDecision(RuleExhaustAttemptsEscalate, Escalate)
    else if HasActivePromiseToPay(i.task.ptpDate, c.now) then RuleDecision(RulePromiseToPaySuppress, Suppress)
    else if !IsRetryable(i.task.reason) then RuleDecision(RuleNoOp, Abandon)
    else RuleDecision(RuleTransientRetry, Retry)
  }

  /** The engines with the documented order; where none of its checks stops the
      event they go on as they do. */
  function DocumentedDecision(p: Tunables, c: Clock, t: Task, attempt: int, touches: int): RuleDecision {
    var base := DocumentedBase(p, c, Input(t, attempt, touches, 0));
    if RetryFlow(t) && base.decision != Retry then base else Decide(p, c, t, attempt, touches)
  }

  function DocumentedMachine(env: Env): Machine {
    Machine(env.clock.now, (t: Task, k: nat, touches: nat) =>
      ActOn(env, t, k, DocumentedDecision(env.tun, env.clock, t, k, touches)))
  }

  // ---------- one decision ----------

  /** No locked rule decides, and two of the three limits hold at once. */
  predicate LimitsClash(p: Tunables, c: Clock, t: Task, attempt: int, touches: int) {
    var cap, budget := AtTouchCap(p, touches), AtMaxRetryAttempts(p, attempt);
    var promise := HasActivePromiseToPay(t.ptpDate, c.now);
    && RetryFlow(t) && !IsFraudFlagged(t.reason) && !IsMandateRevoked(t.reason)
    && ((cap && budget) || (cap && promise) || (budget && promise))
  }

  /** The two orders decide differently exactly when the limits clash; then neither
      touches the customer. */
  lemma OrderMattersExactlyWhen(p: Tunables, c: Clock, t: Task, attempt: nat, touches: nat)
    ensures var d, e := Decide(p, c, t, attempt, touches), DocumentedDecision(p, c, t, attempt, touches);
            && (d != e <==> LimitsClash(p, c, t, attempt, touches))
            && (d != e ==> {d.decision, e.decision} <= {Suppress, Escalate, Abandon})
  {
    hide IsWithinMandateRetryWindow, MandateRetryAttemptAllowed;
    if RetryFlow(t) {
      var i := Input(t, attempt, touches, 0);
      assert BaseRetryDecision(p, c, i).decision != Retry ==>
          Decide(p, c, t, attempt, touches) == BaseRetryDecision(p, c, i);
    }
  }

  lemma TurnsCompare(env: Env, t: Task, k: nat, touches: nat)
    ensures var x, y := MachineOf(env).turn(t, k, touches), DocumentedMachine(env).turn(t, k, touches);
            && (x.step == y.step <==> !LimitsClash(env.tun, env.clock, t, k, touches))
            && (x.step == y.step ==> x == y)
            && (x.step != y.step ==> !x.step.executed && !y.step.executed && x.next.Some? && y.next.Some?)
  {
    hide Decide, DocumentedDecision, LimitsClash, ExecuteAction;
    OrderMattersExactlyWhen(env.tun, env.clock, t, k, touches);
    TurnActsOnDecision(env, t, k, touches);
  }

  lemma DocumentedIsWellFormed(env: Env)
    ensures WellFormed(DocumentedMachine(env))
  {
    hide DocumentedDecision, Decide, ActOn;
    forall t: Task, k: nat, touches: nat
      ensures WellFormedTurn(env.clock.now, t, k, DocumentedMachine(env).turn(t, k, touches))
    {
      OrderMattersExactlyWhen(env.tun, env.clock, t, k, touches);
      DecideSparesUnknownFlows(env.tun, env.clock, t, k, touches);
      DocumentedMarksNoDuplicate(env.tun, env.clock, t, k, touches);
      ActOnIsWellFormed(env, t, k, DocumentedDecision(env.tun, env.clock, t, k, touches));
    }
  }

  lemma DocumentedMarksNoDuplicate(p: Tunables, c: Clock, t: Task, attempt: int, touches: int)
    ensures DocumentedDecision(p, c, t, attempt, touches).rule != RuleDuplicateSuppress
  {
    hide Decide;
    DecideNeverMarksDuplicates(p, c, t, attempt, touches);
  }

  // ---------- one event ----------

  /** The event is driven up to its quota without a success, and there the limits
      clash. */
  predicate OrderShows(env: Env, t: Task, base: nat, left: int) {
    var n := Quota.Quota(env, t, base);
    && n < GUARD && n < left && n <= FirstSuccess(env.draw, t, 0)
    && LimitsClash(env.tun, env.clock, t, n, base + n)
  }

  /** A clash is a turn at which the code stops, so it only comes at the quota. */
  lemma ClashesStop(env: Env, t: Task, base: nat, k: nat)
    requires k < GUARD && k < Quota.Quota(env, t, base)
    ensures !LimitsClash(env.tun, env.clock, t, k, base + k)
  {
    hide Quota.Quota, IsDoNotCall;
    TouchedBelowQuota(env, t, base, k);
  }

  lemma {:induction false} TracesCompare(env: Env, t: Task, base: nat, k: nat, left: nat)
    requires k <= GUARD && k <= Quota.Quota(env, t, base) && k <= FirstSuccess(env.draw, t, 0)
    ensures var x, y := RunFrom(MachineOf(env), t, base, k, left), RunFrom(DocumentedMachine(env), t, base, k, left);
            && |x.steps| == |y.steps| && Executions(x.steps) == Executions(y.steps)
            && (x.end.BudgetCut? <==> y.end.BudgetCut?)
            && (x != y <==> OrderShows(env, t, base, k + left))
    decreases GUARD - k
  {
    hide MachineOf, DocumentedMachine, Quota.Quota, FirstSuccess, LimitsClash, ActsBelow, EndsAt;
    var m, n := MachineOf(env), DocumentedMachine(env);
    EngineActsBelowQuota(env, t, base);
    if k < GUARD && left > 0 {
      TurnsCompare(env, t, k, base + k);
      CompareHere(env, t, base, k);
      if TurnAt(m, t, base, k).next.None? {
        TracesCompare(env, t, base, k + 1, left - 1);
        StepsUnfold(m, t, base, k, left);
        StepsUnfold(n, t, base, k, left);
      }
    }
  }

  /** What the two turns at `k` look like, by the quota and the first success. */
  lemma CompareHere(env: Env, t: Task, base: nat, k: nat)
    requires k < GUARD && k <= Quota.Quota(env, t, base) && k <= FirstSuccess(env.draw, t, 0)
    ensures var n, f, x := Quota.Quota(env, t, base), FirstSuccess(env.draw, t, 0), TurnAt(MachineOf(env), t, base, k);
            && (x.next.None? <==> k < n && k < f)
            && (k < n ==> !LimitsClash(env.tun, env.clock, t, k, base + k))
  {
    hide MachineOf, Quota.Quota, FirstSuccess, LimitsClash, WellFormed;
    EngineActsBelowQuota(env, t, base);
    MachineIsWellFormed(env);
    TurnsAreWellFormed(MachineOf(env), t, k, base + k);
    if k < Quota.Quota(env, t, base) {
      ClashesStop(env, t, base, k);
    }
  }

  lemma StepsUnfold(m: Machine, t: Task, base: nat, k: nat, left: nat)
    requires k < GUARD && left > 0 && TurnAt(m, t, base, k).next.None?
    ensures var x, rest := RunFrom(m, t, base, k, left), RunFrom(m, t, base, k + 1, left - 1);
            && x == Trace([TurnAt(m, t, base, k).step] + rest.steps, rest.end)
            && x.steps[0] == TurnAt(m, t, base, k).step && x.steps[1..] == rest.steps
  {
  }

  // ---------- whole batches ----------

  function OrderShowsFrom(env: Env): (Task, Book) -> bool {
    (t: Task, b: Book) => OrderShows(env, t, b.TouchesOf(t.customerId), b.left)
  }

  /** Under the documented order every batch touches the same customers at the same
      attempts and ends with the same book; its rows differ exactly when some event,
      read off the batch, runs into two limits at once. */
  lemma {:induction false} OrderShowsExactlyWhen(env: Env, tasks: seq<Task>, b: Book)
    ensures var x, y := Process(MachineOf(env), tasks, b), Process(DocumentedMachine(env), tasks, b);
            && x.book == y.book && x.limitHit == y.limitHit && |x.deliveries| == |y.deliveries|
            && (x.deliveries != y.deliveries <==> SomeMeets(env, tasks, b, OrderShowsFrom(env)))
  {
    hide RunFrom, Executions, Touched, SomeMeets, Ahead, OrderShows, FirstSuccess, Quota.Quota, WellFormed;
    hide ActOn, DocumentedDecision, Decide;
    var m, n, hit := MachineOf(env), DocumentedMachine(env), OrderShowsFrom(env);
    if tasks == [] {
      NoneMeets(env, b, hit);
    } else {
      var t := tasks[0];
      SomeMeetsNext(env, tasks, b, hit);
      if t.eventId in b.claimed {
        OrderShowsExactlyWhen(env, tasks[1..], b);
        FirstAndRest(Duplicate(t, DuplicateRow(m.now, t)), Duplicate(t, DuplicateRow(n.now, t)),
                     Process(m, tasks[1..], b).deliveries, Process(n, tasks[1..], b).deliveries);
      } else if b.left > 0 {
        var d, e := Drive(m, t, b), Drive(n, t, b);
        TracesCompare(env, t, d.base, 0, d.left);
        EventIsForetold(env, t, b);
        OrderShowsExactlyWhen(env, tasks[1..], Ahead(env, t, b));
        FirstAndRest(d, e, Process(m, tasks[1..], After(b, d)).deliveries,
                     Process(n, tasks[1..], After(b, e)).deliveries);
      }
    }
  }

  lemma FirstAndRest(d: Delivery, e: Delivery, ds: seq<Delivery>, es: seq<Delivery>)
    ensures [d] + ds == [e] + es <==> d == e && ds == es
  {
    if [d] + ds == [e] + es {
      assert ([d] + ds)[0] == ([e] + es)[0] && ([d] + ds)[1..] == ds && ([e] + es)[1..] == es;
    }
  }

  // ---------- an ordinary batch that shows it ----------

  /** A subscription charge whose payer abandons the authentication. */
  function ThreeFailures(): Event {
    Event("t", FailedSubscription, "c", 100000, "INR", "", map["error_code" := Text("AUTH_FAILED")])
  }

  lemma ThreeFailuresFail()
    ensures Prepare(ThreeFailures()).reason == Auth3dsAbandoned && Prepare(ThreeFailures()).ptpDate.None?
    ensures forall k: nat :: k < 3 ==> !Succeeds(NoonEnv().draw, Prepare(ThreeFailures()), k)
  {
    assert Upper("AUTH_FAILED") == "AUTH_FAILED";
    hide SeededRandom, Upper;
    EarlyDraws();
  }

  /** With the shipped tunables and the source's generator, three failed retries of
      one event bring it to both limits at once: the code escalates the event, the
      documented order abandons it. */
  lemma {:induction false} ThreeFailuresShowTheOrder(left: nat)
    requires left >= 4
    ensures var env, t := NoonEnv(), Prepare(ThreeFailures());
            && OrderShows(env, t, 0, left)
            && RunFrom(MachineOf(env), t, 0, 0, left).end == Finished(Escalated)
            && RunFrom(DocumentedMachine(env), t, 0, 0, left).end == Finished(Abandoned)
  {
    hide MachineOf, DocumentedMachine, RunFrom, Succeeds, FirstSuccess, Executions, ThreeFailures, Prepare, StepsAre;
    var env, t := NoonEnv(), Prepare(ThreeFailures());
    ThreeFailuresFail();
    LastTurns(left);
    TracesCompare(env, t, 0, 0, left);
    TraceShape(MachineOf(env), t, 0, 0, left);
    TraceShape(DocumentedMachine(env), t, 0, 0, left);
    EventIsForetold(env, t, Opening({}, left));
  }

  lemma LastTurns(left: nat)
    ensures var env, t := NoonEnv(), Prepare(ThreeFailures());
            && Quota.Quota(env, t, 0) == 3
            && LimitsClash(env.tun, env.clock, t, 3, 3)
            && TurnAt(MachineOf(env), t, 0, 3).next == Some(Escalated)
            && TurnAt(DocumentedMachine(env), t, 0, 3).next == Some(Abandoned)
  {
    hide Upper, SeededRandom;
    ThreeFailuresFail();
  }
}
