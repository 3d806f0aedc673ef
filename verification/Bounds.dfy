/** The touch cap and the batch budget, and that every event gets finished
    (go/rz/runner.go:80-119, go/rz/engines.go). */
module Bounds {
  import opened Types
  import opened Classify
  import opened Engines
  import opened Execution
  import opened Loop
  import opened Runner

  // ---------- when a turn executes ----------

  lemma TurnExecutes(env: Env, t: Task, k: nat, touches: nat)
    ensures var turn := MachineOf(env).turn(t, k, touches);
            && (turn.step.executed <==> Acts(env.tun, env.clock, t, k, touches))
            && (turn.next.None? ==> turn.step.executed)
            && (turn.step.executed ==>
                  (!t.flow.OtherFlow? && (turn.next.None? <==> !ExecuteAction(env.draw, t, k).recovered)
                   && (turn.next.Some? ==> turn.next.value.Recovered?)))
  {
    assert Acts(env.tun, env.clock, t, k, touches) ==> !t.flow.OtherFlow?;
    assert MachineOf(env).turn(t, k, touches) == ActOn(env, t, k, Decide(env.tun, env.clock, t, k, touches));
    hide Decide, ExecuteAction, ActionRow;
  }

  // ---------- counters are executions ----------

  /** How many touches a run executed for a customer. */
  function CustomerExecutions(ds: seq<Delivery>, customer: string): nat {
    if ds == [] then 0
    else (if ds[0].Fresh? && ds[0].task.customerId == customer then Executions(ds[0].trace.steps) else 0)
         + CustomerExecutions(ds[1..], customer)
  }

  /** The counter of a customer grows by exactly the touches executed for them. */
  lemma {:induction false} CountersCountExecutions(m: Machine, tasks: seq<Task>, b: Book, customer: string)
    ensures var run := Process(m, tasks, b);
            Seen(run.book.touches, customer) == Seen(b.touches, customer) + CustomerExecutions(run.deliveries, customer)
  {
    hide RunFrom, Executions;
    if tasks != [] {
      var t, run := tasks[0], Process(m, tasks, b);
      if t.eventId in b.claimed {
        CountersCountExecutions(m, tasks[1..], b, customer);
        assert run.deliveries[1..] == Process(m, tasks[1..], b).deliveries;
      } else if b.left > 0 {
        var d := Drive(m, t, b);
        CountersCountExecutions(m, tasks[1..], After(b, d), customer);
        assert run.deliveries[1..] == Process(m, tasks[1..], After(b, d)).deliveries;
      }
    }
  }

  /** The run never takes more steps than its budget. */
  lemma {:induction false} BudgetIsKept(m: Machine, tasks: seq<Task>, b: Book)
    requires b.left >= 0
    ensures 0 <= Process(m, tasks, b).book.left <= b.left
  {
    hide RunFrom, Executions;
    if tasks != [] {
      var t := tasks[0];
      if t.eventId in b.claimed {
        BudgetIsKept(m, tasks[1..], b);
      } else if b.left > 0 {
        TraceShape(m, t, b.TouchesOf(t.customerId), 0, b.left);
        BudgetIsKept(m, tasks[1..], After(b, Drive(m, t, b)));
      }
    }
  }

  /** No event takes more than a hundred steps, and the guard stops it after exactly
      that many. */
  lemma {:induction false} GuardStopsAfterAHundred(m: Machine, t: Task, base: nat, left: int)
    ensures var tr := RunFrom(m, t, base, 0, left);
            |tr.steps| <= 100 && (tr.end.GuardCut? ==> |tr.steps| == 100)
  {
    hide RunFrom;
    TraceShape(m, t, base, 0, left);
  }

  // ---------- touch caps ----------

  /** No turn of the event executes once its customer has been touched `cap` times. */
  ghost predicate CappedAt(m: Machine, t: Task, cap: int) {
    forall k: nat, touches: nat :: touches >= cap ==> !m.turn(t, k, touches).step.executed
  }

  /** A capped task keeps its customer's counter at the cap, and with a cap below
      the guard it always finishes unless the budget cuts it. "Cap minus touches"
      decreases with every turn that goes on. */
  lemma {:induction false} CappedTrace(m: Machine, t: Task, base: nat, k: nat, left: int, cap: int)
    requires WellFormed(m) && CappedAt(m, t, cap) && k <= GUARD
    ensures var tr := RunFrom(m, t, base, k, left);
            && Executions(tr.steps) <= (if cap > base + k then cap - base - k else 0)
            && (tr.end.GuardCut? && k < GUARD ==> cap >= base + GUARD)
            && (tr.end.Finished? ==> RunningTerminal(tr.end.state))
    decreases GUARD - k
  {
    if k < GUARD && left > 0 {
      var turn := m.turn(t, k, base + k);
      assert WellFormedTurn(m.now, t, k, turn);
      assert base + k >= cap ==> !turn.step.executed;
      var tr := RunFrom(m, t, base, k, left);
      if turn.next.None? {
        CappedTrace(m, t, base, k + 1, left - 1, cap);
        assert tr.steps[1..] == RunFrom(m, t, base, k + 1, left - 1).steps;
      } else {
        assert tr.steps[1..] == [];
      }
    }
  }

  /** The flows whose engines consult the touch cap before every touch. */
  predicate TouchCapped(t: Task) {
    t.flow.FailedSubscription? || t.flow.MandateRetry? || t.flow.CheckoutAbandonment? || t.flow.B2BReceivables?
    || (t.flow.HinglishVoice? && !t.reason.VoiceUnreachable?)
  }

  lemma EnginesRespectTheCap(env: Env, t: Task)
    requires TouchCapped(t)
    ensures CappedAt(MachineOf(env), t, env.tun.maxTouchesPerCustomer)
  {
    forall k: nat, touches: nat | touches >= env.tun.maxTouchesPerCustomer
      ensures !MachineOf(env).turn(t, k, touches).step.executed
    {
      TurnExecutes(env, t, k, touches);
    }
  }

  /** In a batch of touch-capped flows no customer is touched more often than the
      cap, and nothing is ever touched when the cap is not positive. */
  lemma {:induction false} TouchesAreCapped(env: Env, tasks: seq<Task>, b: Book, customer: string)
    requires forall t :: t in tasks ==> TouchCapped(t)
    ensures var run, cap := Process(MachineOf(env), tasks, b), env.tun.maxTouchesPerCustomer;
            && Seen(run.book.touches, customer)
               <= (if cap > Seen(b.touches, customer) then cap else Seen(b.touches, customer))
            && CustomerExecutions(run.deliveries, customer)
               <= (if cap > Seen(b.touches, customer) then cap - Seen(b.touches, customer) else 0)
  {
    hide RunFrom, Executions, MachineOf, CappedAt, WellFormed;
    CountersCountExecutions(MachineOf(env), tasks, b, customer);
    if tasks != [] {
      var m, t := MachineOf(env), tasks[0];
      if t.eventId in b.claimed {
        TouchesAreCapped(env, tasks[1..], b, customer);
      } else if b.left > 0 {
        var d := Drive(m, t, b);
        EnginesRespectTheCap(env, t);
        MachineIsWellFormed(env);
        CappedTrace(m, t, d.base, 0, b.left, env.tun.maxTouchesPerCustomer);
        TouchesAreCapped(env, tasks[1..], After(b, d), customer);
      }
    }
  }

  /** When a batch of touch-capped flows stays within its budget and the cap is
      below the guard, every task was delivered and every fresh one finished in a
      running-terminal state. */
  lemma {:induction false} EveryEventFinishes(env: Env, tasks: seq<Task>, b: Book)
    requires forall t :: t in tasks ==> TouchCapped(t)
    requires env.tun.maxTouchesPerCustomer < GUARD
    requires !Process(MachineOf(env), tasks, b).limitHit
    ensures var ds := Process(MachineOf(env), tasks, b).deliveries;
            && |ds| == |tasks|
            && forall i :: 0 <= i < |ds| && ds[i].Fresh? ==>
                 ds[i].trace.end.Finished? && RunningTerminal(ds[i].trace.end.state)
  {
    hide RunFrom, Executions, MachineOf, CappedAt, WellFormed;
    if tasks != [] {
      var m, t := MachineOf(env), tasks[0];
      if t.eventId in b.claimed {
        EveryEventFinishes(env, tasks[1..], b);
      } else if b.left > 0 {
        var d := Drive(m, t, b);
        EnginesRespectTheCap(env, t);
        MachineIsWellFormed(env);
        CappedTrace(m, t, d.base, 0, b.left, env.tun.maxTouchesPerCustomer);
        EveryEventFinishes(env, tasks[1..], After(b, d));
      }
    }
  }
}
