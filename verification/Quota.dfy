/** Exactly how often an event is executed, for every draw: as often as its quota,
    its first successful attempt, the guard and the budget allow
    (go/rz/runner.go:98-149, go/rz/engines.go, go/rz/rules.go:90-117). */
module Quota {
  import opened Types
  import opened Classify
  import opened Rules
  import opened Execution
  import opened Loop
  import opened Runner
  import opened Bounds
  import opened Policy
  import opened Settlement
  import Engines

  function Min(a: int, b: int): int { if a <= b then a else b }

  /** How many attempts the engine of the flow grants an event whose customer had
      `base` touches before it. Three kinds of event have no limit of their own:
      unreachable voice, payment degradation and promises to pay. */
  function Quota(env: Env, t: Task, base: nat): nat {
    var p := env.tun;
    if !MayTouch(p, env.clock, t, 0, base) then 0
    else
      match t.flow
      case FailedSubscription => Min(p.maxRetryAttempts, p.maxTouchesPerCustomer - base)
      case MandateRetry => Min(Min(p.maxRetryAttempts, p.maxTouchesPerCustomer - base), DaysOpen(env, t))
      case CheckoutAbandonment => Min(p.checkoutReminderCap - base, p.maxTouchesPerCustomer - base)
      case B2BReceivables => p.maxTouchesPerCustomer - base
      case HinglishVoice =>
        if t.reason.VoiceUnreachable? then GUARD else Min(p.maxVoiceCalls - base, p.maxTouchesPerCustomer - base)
      case _ => GUARD
  }

  /** The days of a mandate's window that have begun. */
  function DaysOpen(env: Env, t: Task): nat {
    var now := env.clock.Effective();
    if t.window.None? || now < t.window.value.start then 0 else (now - t.window.value.start) / DAY_MS + 1
  }

  lemma TouchedBelowQuota(env: Env, t: Task, base: nat, k: nat)
    requires k < GUARD
    ensures MayTouch(env.tun, env.clock, t, k, base + k) <==> k < Quota(env, t, base)
  {
    hide IsDoNotCall, SequenceLength;
  }

  // ---------- the first success ----------

  predicate Succeeds(draw: Draw, t: Task, k: nat) {
    !t.flow.OtherFlow? && ExecuteAction(draw, t, k).recovered
  }

  /** The first attempt from `k` on whose touch recovers the event; the guard, when
      no earlier one does. */
  function FirstSuccess(draw: Draw, t: Task, k: nat): (f: nat)
    requires k <= GUARD
    ensures k <= f <= GUARD && (f < GUARD ==> Succeeds(draw, t, f))
    ensures forall j: nat :: k <= j < f ==> !Succeeds(draw, t, j)
    decreases GUARD - k, t
  {
    if k == GUARD || Succeeds(draw, t, k) then k else FirstSuccess(draw, t, k + 1)
  }

  // ---------- the count, over any machine ----------

  /** The event acts at an attempt below the guard exactly when it is below `quota`. */
  ghost predicate ActsBelow(m: Machine, t: Task, base: nat, quota: nat) {
    forall k: nat {:trigger TurnAt(m, t, base, k)} :: k < GUARD ==> (TurnAt(m, t, base, k).step.executed <==> k < quota)
  }

  /** Touches before `f` let the loop go on, and a touch at `f` ends it. */
  ghost predicate EndsAt(m: Machine, t: Task, base: nat, quota: nat, f: nat) {
    forall k: nat {:trigger TurnAt(m, t, base, k)} ::
      k < GUARD && k < quota && k <= f ==> (TurnAt(m, t, base, k).next.None? <==> k < f)
  }

  /** Then it is executed as often as quota, first success, guard and budget allow,
      and a touch ends it exactly when the first success lies below all of them. */
  lemma {:induction false} ExactCount(m: Machine, t: Task, base: nat, k: nat, left: nat, quota: nat, f: nat)
    requires WellFormed(m) && ActsBelow(m, t, base, quota) && EndsAt(m, t, base, quota, f)
    requires k <= GUARD && k <= quota && k <= f
    ensures var tr := RunFrom(m, t, base, k, left);
            && Executions(tr.steps) == Min(Min(quota, f + 1) - k, Min(GUARD - k, left))
            && (f < quota && f < GUARD && f - k < left <==>
                  tr.end.Finished? && tr.steps != [] && tr.steps[|tr.steps| - 1].executed)
    decreases GUARD - k
  {
    if k < GUARD && left > 0 {
      var turn := TurnAt(m, t, base, k);
      TurnsAreWellFormed(m, t, k, base + k);
      hide WellFormed;
      var tr := RunFrom(m, t, base, k, left);
      if turn.next.None? {
        ExactCount(m, t, base, k + 1, left - 1, quota, f);
        assert tr.steps[1..] == RunFrom(m, t, base, k + 1, left - 1).steps;
      } else {
        assert tr.steps == [turn.step] && tr.steps[1..] == [];
      }
    }
  }

  // ---------- the count, in the source's terms ----------

  lemma EngineActsBelowQuota(env: Env, t: Task, base: nat)
    ensures ActsBelow(MachineOf(env), t, base, Quota(env, t, base))
    ensures EndsAt(MachineOf(env), t, base, Quota(env, t, base), FirstSuccess(env.draw, t, 0))
  {
    hide MachineOf, Quota, MayTouch, Engines.Acts, ExecuteAction, FirstSuccess;
    forall k: nat | k < GUARD
      ensures TurnAt(MachineOf(env), t, base, k).step.executed <==> k < Quota(env, t, base)
      ensures k < Quota(env, t, base) ==> (TurnAt(MachineOf(env), t, base, k).next.None? <==> !Succeeds(env.draw, t, k))
    {
      TurnExecutes(env, t, k, base + k);
      TouchedExactlyWhen(env.tun, env.clock, t, k, base + k);
      TouchedBelowQuota(env, t, base, k);
    }
  }

  /** How often an event is executed, for every draw of the generator: exactly the
      smallest of its quota, its first success plus one, the guard and the budget;
      it is recovered by a touch exactly when its first success lies below them. */
  lemma {:induction false} ExactExecutions(env: Env, t: Task, base: nat, left: nat)
    ensures var tr, quota, f := RunFrom(MachineOf(env), t, base, 0, left), Quota(env, t, base),
            FirstSuccess(env.draw, t, 0);
            && Executions(tr.steps) == Min(Min(quota, f + 1), Min(GUARD, left))
            && (ByTouch(tr) <==> f < quota && f < GUARD && f < left)
  {
    hide MachineOf, RunFrom, Quota, FirstSuccess, Executions, ActsBelow, EndsAt, WellFormed;
    EngineActsBelowQuota(env, t, base);
    MachineIsWellFormed(env);
    ExactCount(MachineOf(env), t, base, 0, left, Quota(env, t, base), FirstSuccess(env.draw, t, 0));
    TouchEndsRecovered(env, t, base, left);
  }

  /** A trace that ends on a touch ends recovered. */
  lemma {:induction false} TouchEndsRecovered(env: Env, t: Task, base: nat, left: nat)
    ensures var tr := RunFrom(MachineOf(env), t, base, 0, left);
            tr.end.Finished? && tr.steps != [] && tr.steps[|tr.steps| - 1].executed ==> tr.end.state.Recovered?
  {
    hide MachineOf, RunFrom, Engines.Acts, ExecuteAction;
    var m, tr := MachineOf(env), RunFrom(MachineOf(env), t, base, 0, left);
    TraceShape(m, t, base, 0, left);
    var n := |tr.steps|;
    if n > 0 {
      assert tr.steps[n - 1] == TurnAt(m, t, base, n - 1).step;
      TurnExecutes(env, t, n - 1, base + n - 1);
    }
  }

  // ---------- mandates ----------

  lemma MandateQuotaBounds(env: Env, t: Task, base: nat)
    requires t.flow.MandateRetry?
    ensures var quota, now := Quota(env, t, base), env.clock.Effective();
            && (quota > 0 ==> t.window.Some? && t.window.value.start <= now <= t.window.value.end)
            && (quota > 0 ==> quota <= env.tun.maxRetryAttempts && quota <= env.tun.maxTouchesPerCustomer - base)
            && (quota > 0 ==> quota <= SequenceLength(env.tun) && quota <= DaysOpen(env, t))
  {
  }

  /** The sequencing bound: outside its window a mandate is never retried; inside
      it at most as often as the retry budget, the touches left, the length of the
      sequence and the days elapsed allow - and, whatever the draws, exactly as
      often as its quota, its first success, the guard and the budget say. */
  lemma {:induction false} MandateRetriesAreSequenced(env: Env, t: Task, base: nat, left: nat)
    requires t.flow.MandateRetry?
    ensures var n := Executions(RunFrom(MachineOf(env), t, base, 0, left).steps);
            && (n > 0 ==> IsWithinMandateRetryWindow(env.clock.Effective(), t.window))
            && (n > 0 ==> n <= env.tun.maxRetryAttempts && n <= env.tun.maxTouchesPerCustomer - base)
            && (n > 0 ==> n <= SequenceLength(env.tun) && n <= DaysOpen(env, t))
            && n == Min(Min(Quota(env, t, base), FirstSuccess(env.draw, t, 0) + 1), Min(GUARD, left))
  {
    hide MachineOf, RunFrom, Quota, FirstSuccess, Executions, SequenceLength, DaysOpen;
    ExactExecutions(env, t, base, left);
    MandateQuotaBounds(env, t, base);
  }

  // ---------- the touch cap ----------

  /** An event that carries its customer past the touch cap: an uncapped flow may
      touch, and neither a success nor the guard nor the budget stops it in time. */
  predicate Overruns(env: Env, t: Task, base: nat, left: int) {
    var room := env.tun.maxTouchesPerCustomer - base;
    && !TouchCapped(t) && MayTouch(env.tun, env.clock, t, 0, base)
    && FirstSuccess(env.draw, t, 0) >= room && GUARD > room && left > room
  }

  /** One event takes a customer from within the cap past it exactly when it
      overruns. */
  lemma {:induction false} CapIsPassedExactlyWhen(env: Env, t: Task, base: nat, left: nat)
    requires base <= env.tun.maxTouchesPerCustomer
    ensures base + Executions(RunFrom(MachineOf(env), t, base, 0, left).steps) > env.tun.maxTouchesPerCustomer
            <==> Overruns(env, t, base, left)
  {
    hide MachineOf, RunFrom, FirstSuccess, Executions, MayTouch;
    ExactExecutions(env, t, base, left);
    hide IsDoNotCall;
  }

  lemma TouchesAfter(m: Machine, b: Book, d: Delivery, customer: string)
    requires d == Drive(m, d.task, b)
    ensures After(b, d).TouchesOf(customer) ==
            b.TouchesOf(customer) + (if d.task.customerId == customer then Executions(d.trace.steps) else 0)
  {
    hide RunFrom, Executions;
  }

  // ---------- a real overrun ----------

  /** An unreachable customer. */
  function UnreachableCall(): Event {
    Event("t", HinglishVoice, "c", 100000, "INR", "", map["call_state" := Text("unreachable")])
  }

  /** 2026-09-01 06:30 UTC, noon in India, with the shipped tunables and generator. */
  function NoonEnv(): Env {
    Env(DEFAULT_TUNABLES, Clock(1788244200000, 1788244200000), SeededDraw())
  }

  /** The first eight draws: 0.692, 0.345, 0.998, 0.651, 0.304, 0.957, 0.610, 0.263. */
  lemma EarlyDraws()
    ensures SeededRandom("t", 0) >= 0.3 && SeededRandom("t", 1) >= 0.3
    ensures SeededRandom("t", 2) >= 0.3 && SeededRandom("t", 3) >= 0.3
  {
    assert CodeSum("t") == 116 by { assert "t"[..0] == ""; }
    hide SeededRandom, CodeSum;
    DrawIs("t", 0, 71, 2971870260);
    DrawIs("t", 1, 6235, 1481302169);
    DrawIs("t", 2, 12398, 4285701374);
    DrawIs("t", 3, 18562, 2795133283);
  }

  lemma LateDraws()
    ensures SeededRandom("t", 4) >= 0.3 && SeededRandom("t", 5) >= 0.3
    ensures SeededRandom("t", 6) >= 0.3 && SeededRandom("t", 7) < 0.3
  {
    assert CodeSum("t") == 116 by { assert "t"[..0] == ""; }
    hide SeededRandom, CodeSum;
    DrawIs("t", 4, 24726, 1304565192);
    DrawIs("t", 5, 30889, 4108964397);
    DrawIs("t", 6, 37053, 2618396306);
    DrawIs("t", 7, 43217, 1127828215);
  }

  lemma CallDraws()
    ensures forall k: nat :: k < 7 ==> !Succeeds(NoonEnv().draw, Prepare(UnreachableCall()), k)
    ensures Succeeds(NoonEnv().draw, Prepare(UnreachableCall()), 7)
  {
    hide SeededRandom, ClassifyEvent;
    EarlyDraws();
    LateDraws();
  }

  /** With the shipped tunables the customer of this event is called eight times,
      against the default cap of three. */
  lemma {:induction false} UnreachableVoicePassesTheCap(left: nat)
    requires left >= 8
    ensures var t := Prepare(UnreachableCall());
            && NoonEnv().tun.maxTouchesPerCustomer == 3
            && Executions(RunFrom(MachineOf(NoonEnv()), t, 0, 0, left).steps) == 8
            && Overruns(NoonEnv(), t, 0, left)
  {
    hide MachineOf, RunFrom, Executions, Succeeds, FirstSuccess;
    var env, t := NoonEnv(), Prepare(UnreachableCall());
    CallDraws();
    assert FirstSuccess(env.draw, t, 0) == 7;
    ExactExecutions(env, t, 0, left);
  }
}
