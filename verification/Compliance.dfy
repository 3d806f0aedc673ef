/** The compliance auditor of the policy comparison (go/rz/compare.go:9-70), and
    the real engine under it. */
module Compliance {
  import opened Types
  import opened Classify
  import opened Rules
  import opened Engines
  import opened Loop
  import opened Runner
  import opened Bounds
  import opened Naive
  import opened Policy
  import opened Quota
  import opened Forecast

  datatype ViolationCounts = ViolationCounts(
    fraudRetries: nat, mandateRetries: nat, quietHourCalls: nat, dncBreaches: nat,
    touchCapBreaches: nat, retryBudgetBreaches: nat, ptpSuppressionBreaches: nat, total: nat)

  predicate FraudRetry(t: NaiveTouch) { IsFraudFlagged(t.reason) }

  predicate RevokedRetry(t: NaiveTouch) { IsMandateRevoked(t.reason) }

  predicate ForbiddenCall(t: NaiveTouch) { t.channel.Voice? && IsDoNotCall(t.dnc, t.now) }

  predicate DncBreach(t: NaiveTouch) { ForbiddenCall(t) && t.dnc }

  predicate QuietHourCall(t: NaiveTouch) { ForbiddenCall(t) && !t.dnc }

  function OverTouchCap(p: Tunables): NaiveTouch -> bool { (t: NaiveTouch) => AtTouchCap(p, t.touchesForCustomer) }

  function OverRetryBudget(p: Tunables): NaiveTouch -> bool { (t: NaiveTouch) => AtMaxRetryAttempts(p, t.attempt) }

  predicate DuringPromise(t: NaiveTouch) { HasActivePromiseToPay(t.ptpDate, t.now) }

  /** At least one named rule forbids the touch. */
  function Violates(p: Tunables): NaiveTouch -> bool {
    (t: NaiveTouch) =>
      FraudRetry(t) || RevokedRetry(t) || ForbiddenCall(t) || OverTouchCap(p)(t) || OverRetryBudget(p)(t)
      || DuringPromise(t)
  }

  function Count(touches: seq<NaiveTouch>, hit: NaiveTouch -> bool): nat { |Filter(touches, hit)| }

  function CountsOf(p: Tunables, touches: seq<NaiveTouch>): ViolationCounts {
    ViolationCounts(
      Count(touches, FraudRetry), Count(touches, RevokedRetry), Count(touches, QuietHourCall),
      Count(touches, DncBreach),
      Count(touches, OverTouchCap(p)), Count(touches, OverRetryBudget(p)), Count(touches, DuringPromise),
      Count(touches, Violates(p)))
  }

  function Bit(b: bool): nat { if b then 1 else 0 }

  lemma CountNext(touches: seq<NaiveTouch>, t: NaiveTouch, hit: NaiveTouch -> bool)
    ensures Count(touches + [t], hit) == Count(touches, hit) + Bit(hit(t))
  {
    FilterConcat(touches, [t], hit);
    assert Filter([t], hit) == if hit(t) then [t] else [];
  }

  function OneCounts(p: Tunables, v: ViolationCounts, t: NaiveTouch): ViolationCounts {
    ViolationCounts(
      v.fraudRetries + Bit(FraudRetry(t)), v.mandateRetries + Bit(RevokedRetry(t)),
      v.quietHourCalls + Bit(QuietHourCall(t)), v.dncBreaches + Bit(DncBreach(t)),
      v.touchCapBreaches + Bit(OverTouchCap(p)(t)), v.retryBudgetBreaches + Bit(OverRetryBudget(p)(t)),
      v.ptpSuppressionBreaches + Bit(DuringPromise(t)), v.total + Bit(Violates(p)(t)))
  }

  lemma CountsNext(p: Tunables, touches: seq<NaiveTouch>, t: NaiveTouch)
    ensures CountsOf(p, touches + [t]) == OneCounts(p, CountsOf(p, touches), t)
  {
    hide Count, Bit;
    CountNext(touches, t, FraudRetry);
    CountNext(touches, t, RevokedRetry);
    CountNext(touches, t, QuietHourCall);
    CountNext(touches, t, DncBreach);
    CountNext(touches, t, OverTouchCap(p));
    CountNext(touches, t, OverRetryBudget(p));
    CountNext(touches, t, DuringPromise);
    CountNext(touches, t, Violates(p));
  }

  lemma NothingCounted(p: Tunables)
    ensures CountsOf(p, []) == ViolationCounts(0, 0, 0, 0, 0, 0, 0, 0)
  {
  }

  method CountComplianceViolations(p: Tunables, touches: seq<NaiveTouch>) returns (v: ViolationCounts)
    ensures v == CountsOf(p, touches)
  {
    hide CountsOf;
    v := ViolationCounts(0, 0, 0, 0, 0, 0, 0, 0);
    NothingCounted(p);
    for i := 0 to |touches|
      invariant v == CountsOf(p, touches[..i])
    {
      var t := touches[i];
      CountsNext(p, touches[..i], t);
      assert touches[..i] + [t] == touches[..i + 1];
      var violated := false;
      if IsFraudFlagged(t.reason) {
        v, violated := v.(fraudRetries := v.fraudRetries + 1), true;
      }
      if IsMandateRevoked(t.reason) {
        v, violated := v.(mandateRetries := v.mandateRetries + 1), true;
      }
      if t.channel.Voice? && IsDoNotCall(t.dnc, t.now) {
        if t.dnc {
          v := v.(dncBreaches := v.dncBreaches + 1);
        } else {
          v := v.(quietHourCalls := v.quietHourCalls + 1);
        }
        violated := true;
      }
      if AtTouchCap(p, t.touchesForCustomer) {
        v, violated := v.(touchCapBreaches := v.touchCapBreaches + 1), true;
      }
      if AtMaxRetryAttempts(p, t.attempt) {
        v, violated := v.(retryBudgetBreaches := v.retryBudgetBreaches + 1), true;
      }
      if HasActivePromiseToPay(t.ptpDate, t.now) {
        v, violated := v.(ptpSuppressionBreaches := v.ptpSuppressionBreaches + 1), true;
      }
      if violated {
        v := v.(total := v.total + 1);
      }
    }
    assert touches[..|touches|] == touches;
  }

  /** The headline counts violating touches, not violations: it is at least every
      counter, at most their sum, and at most the number of touches. */
  lemma {:induction false} TotalCountsTouches(p: Tunables, touches: seq<NaiveTouch>)
    ensures var v := CountsOf(p, touches);
            && v.fraudRetries <= v.total && v.mandateRetries <= v.total
            && v.quietHourCalls + v.dncBreaches <= v.total
            && v.touchCapBreaches <= v.total && v.retryBudgetBreaches <= v.total && v.ptpSuppressionBreaches <= v.total
            && v.total <= v.fraudRetries + v.mandateRetries + v.quietHourCalls + v.dncBreaches
                          + v.touchCapBreaches + v.retryBudgetBreaches + v.ptpSuppressionBreaches
            && v.total <= |touches|
    decreases |touches|
  {
    hide CountsOf, IsDoNotCall;
    if touches == [] {
      NothingCounted(p);
    } else {
      var n := |touches| - 1;
      TotalCountsTouches(p, touches[..n]);
      CountsNext(p, touches[..n], touches[n]);
      assert touches[..n] + [touches[n]] == touches;
    }
  }

  // ---------- the real engine, recorded the same way ----------

  /** The touch a real execution makes: the customer's counter before it. */
  function RealTouch(now: int, t: Task, attempt: nat, touches: nat): NaiveTouch {
    NaiveTouch(t.eventId, t.flow, t.customerId, t.reason, attempt, touches,
               if t.flow.HinglishVoice? then Voice else Api, now, t.dnc, t.ptpDate)
  }

  function RecordedSteps(now: int, t: Task, base: nat, steps: seq<Step>): seq<NaiveTouch> {
    if steps == [] then []
    else (if steps[0].executed then [RealTouch(now, t, steps[0].attempt, base + steps[0].attempt)] else [])
         + RecordedSteps(now, t, base, steps[1..])
  }

  /** One touch recorded at every real execution of a run. */
  function Recorded(now: int, ds: seq<Delivery>): seq<NaiveTouch> {
    if ds == [] then []
    else (if ds[0].Fresh? then RecordedSteps(now, ds[0].task, ds[0].base, ds[0].trace.steps) else [])
         + Recorded(now, ds[1..])
  }

  /** What a recorded touch of an event says. */
  predicate RealTouchSays(now: int, t: Task, base: nat, u: NaiveTouch) {
    && u.eventId == t.eventId && u.flow == t.flow && u.customerId == t.customerId && u.reason == t.reason
    && u.touchesForCustomer == base + u.attempt && u.now == now && u.dnc == t.dnc && u.ptpDate == t.ptpDate
    && u.channel == (if t.flow.HinglishVoice? then Voice else Api)
  }

  lemma {:induction false} RecordedSay(now: int, t: Task, base: nat, steps: seq<Step>)
    ensures var list := RecordedSteps(now, t, base, steps);
            |list| == Executions(steps) && forall u :: u in list ==> RealTouchSays(now, t, base, u)
  {
    if steps != [] {
      RecordedSay(now, t, base, steps[1..]);
    }
  }

  /** Every touch recorded of a run is one of its driven events'. */
  lemma {:induction false} RecordedTouchesSay(now: int, ds: seq<Delivery>, u: NaiveTouch)
    requires u in Recorded(now, ds)
    ensures exists d :: d in ds && d.Fresh? && RealTouchSays(now, d.task, d.base, u)
  {
    hide RecordedSteps, RealTouchSays;
    var own := if ds[0].Fresh? then RecordedSteps(now, ds[0].task, ds[0].base, ds[0].trace.steps) else [];
    if u in own {
      RecordedSay(now, ds[0].task, ds[0].base, ds[0].trace.steps);
      assert ds[0] in ds;
    } else {
      RecordedTouchesSay(now, ds[1..], u);
      assert forall d :: d in ds[1..] ==> d in ds;
    }
  }

  /** Each touch carries the number of earlier touches of its customer, the way the
      naive run counts them. */
  predicate CountersMatch(earlier: seq<NaiveTouch>, list: seq<NaiveTouch>)
    decreases list
  {
    list == [] || (list[0].touchesForCustomer == TouchesBy(earlier, list[0].customerId)
                   && CountersMatch(earlier + [list[0]], list[1..]))
  }

  lemma {:induction false} CountersMatchConcat(earlier: seq<NaiveTouch>, a: seq<NaiveTouch>, b: seq<NaiveTouch>)
    requires CountersMatch(earlier, a) && CountersMatch(earlier + a, b)
    ensures CountersMatch(earlier, a + b)
    decreases a
  {
    hide TouchesBy;
    if a == [] {
      assert a + b == b && earlier + a == earlier;
    } else {
      assert (a + b)[1..] == a[1..] + b;
      assert earlier + [a[0]] + a[1..] == earlier + a;
      CountersMatchConcat(earlier + [a[0]], a[1..], b);
    }
  }

  lemma RecordUnfold(now: int, t: Task, base: nat, steps: seq<Step>)
    requires steps != []
    ensures var own := if steps[0].executed then [RealTouch(now, t, steps[0].attempt, base + steps[0].attempt)] else [];
            RecordedSteps(now, t, base, steps) == own + RecordedSteps(now, t, base, steps[1..])
    ensures RecordedSteps(now, t, base, []) == []
    ensures Executions(steps) == (if steps[0].executed then 1 else 0) + Executions(steps[1..]) && Executions([]) == 0
  {
  }

  lemma TraceUnfold(m: Machine, t: Task, base: nat, k: nat, left: int)
    requires k < GUARD && left > 0
    ensures var steps, turn := RunFrom(m, t, base, k, left).steps, m.turn(t, k, base + k);
            && steps != [] && steps[0] == turn.step
            && steps[1..] == if turn.next.None? then RunFrom(m, t, base, k + 1, left - 1).steps else []
  {
  }

  lemma TraceRecordUnfold(m: Machine, t: Task, base: nat, k: nat, left: int, earlier: seq<NaiveTouch>)
    requires WellFormed(m) && k < GUARD && left > 0
    ensures var steps := RunFrom(m, t, base, k, left).steps;
            var list := RecordedSteps(m.now, t, base, steps);
            var turn, touch := m.turn(t, k, base + k), RealTouch(m.now, t, k, base + k);
            if turn.next.None? then
              var rest := RunFrom(m, t, base, k + 1, left - 1).steps;
              && list == [touch] + RecordedSteps(m.now, t, base, rest)
              && list[1..] == RecordedSteps(m.now, t, base, rest)
              && earlier + list == (earlier + [touch]) + list[1..]
              && Executions(steps) == 1 + Executions(rest)
            else
              && list == (if turn.step.executed then [touch] else [])
              && Executions(steps) == (if turn.step.executed then 1 else 0)
  {
    hide WellFormed, RunFrom, RecordedSteps, Executions, RealTouch;
    TurnsAreWellFormed(m, t, k, base + k);
    TraceUnfold(m, t, base, k, left);
    RecordUnfold(m.now, t, base, RunFrom(m, t, base, k, left).steps);
  }

  lemma {:induction false} TraceIsRecorded(m: Machine, t: Task, base: nat, k: nat, left: int, earlier: seq<NaiveTouch>,
                                           other: string)
    requires WellFormed(m) && k <= GUARD && TouchesBy(earlier, t.customerId) == base + k
    ensures var steps := RunFrom(m, t, base, k, left).steps;
            var list := RecordedSteps(m.now, t, base, steps);
            && CountersMatch(earlier, list)
            && TouchesBy(earlier + list, other)
              == TouchesBy(earlier, other) + (if other == t.customerId then Executions(steps) else 0)
    decreases GUARD - k
  {
    hide TouchesBy, WellFormed;
    if k == GUARD || left <= 0 {
      assert earlier + [] == earlier;
    } else {
      hide RunFrom, RecordedSteps, Executions;
      var touch := RealTouch(m.now, t, k, base + k);
      TraceRecordUnfold(m, t, base, k, left, earlier);
      TouchesByNext(earlier, touch, t.customerId);
      TouchesByNext(earlier, touch, other);
      if m.turn(t, k, base + k).next.None? {
        TraceIsRecorded(m, t, base, k + 1, left - 1, earlier + [touch], other);
      } else {
        assert earlier + [] == earlier && [touch][1..] == [];
      }
    }
  }

  /** The engine's counters agree with the recorded list. */
  ghost predicate CountersAgree(b: Book, earlier: seq<NaiveTouch>) {
    forall c: string :: b.TouchesOf(c) == TouchesBy(earlier, c)
  }

  lemma {:induction false} RecordedCounters(m: Machine, tasks: seq<Task>, b: Book, earlier: seq<NaiveTouch>)
    requires WellFormed(m) && CountersAgree(b, earlier)
    ensures CountersMatch(earlier, Recorded(m.now, Process(m, tasks, b).deliveries))
  {
    hide RunFrom, WellFormed, TouchesBy, RecordedSteps, Executions;
    if tasks != [] {
      var t, run := tasks[0], Process(m, tasks, b);
      if t.eventId in b.claimed {
        RecordedCounters(m, tasks[1..], b, earlier);
        assert run.deliveries[1..] == Process(m, tasks[1..], b).deliveries;
        assert [] + Recorded(m.now, run.deliveries[1..]) == Recorded(m.now, run.deliveries[1..]);
      } else if b.left > 0 {
        var d := Drive(m, t, b);
        var own := RecordedSteps(m.now, t, d.base, d.trace.steps);
        forall c: string ensures After(b, d).TouchesOf(c) == TouchesBy(earlier + own, c) {
          TraceIsRecorded(m, t, d.base, 0, b.left, earlier, c);
        }
        TraceIsRecorded(m, t, d.base, 0, b.left, earlier, t.customerId);
        RecordedCounters(m, tasks[1..], After(b, d), earlier + own);
        assert run.deliveries[1..] == Process(m, tasks[1..], After(b, d)).deliveries;
        CountersMatchConcat(earlier, own, Recorded(m.now, run.deliveries[1..]));
      }
    }
  }

  // ---------- what the audit finds, on every flow ----------

  /** What the auditor objects to in a touch of the real engine: an attempt beyond
      the retry budget, a touch during a promise or beyond the touch cap, and a
      revoked mandate. */
  predicate Offends(env: Env, t: Task, k: int, touches: int) {
    || AtMaxRetryAttempts(env.tun, k) || AtTouchCap(env.tun, touches)
    || HasActivePromiseToPay(t.ptpDate, env.clock.now) || IsMandateRevoked(t.reason)
  }

  /** On every flow the audit of an executed touch finds exactly these four: never a
      fraud retry, never a forbidden call. The retry flows stay clear of all four,
      the touch-capped ones of two. */
  lemma AuditFindsExactly(env: Env, t: Task, k: nat, touches: nat)
    requires WellClassified(t) && MachineOf(env).turn(t, k, touches).step.executed
    ensures var u := RealTouch(env.clock.now, t, k, touches);
            && (Violates(env.tun)(u) <==> Offends(env, t, k, touches))
            && !FraudRetry(u) && !ForbiddenCall(u)
            && (TouchCapped(t) ==>
                  (Violates(env.tun)(u) <==>
                     AtMaxRetryAttempts(env.tun, k) || HasActivePromiseToPay(t.ptpDate, env.clock.now)))
            && (RetryFlow(t) ==> !Violates(env.tun)(u))
  {
    TurnExecutes(env, t, k, touches);
    TouchedExactlyWhen(env.tun, env.clock, t, k, touches);
    hide MachineOf, Decide, IsQuietHour;
    assert MayTouch(env.tun, env.clock, t, k, touches);
    var u := RealTouch(env.clock.now, t, k, touches);
    assert !FraudRetry(u);
    assert !ForbiddenCall(u);
    assert OverTouchCap(env.tun)(u) == AtTouchCap(env.tun, touches);
    assert OverRetryBudget(env.tun)(u) == AtMaxRetryAttempts(env.tun, k);
    assert RevokedRetry(u) == IsMandateRevoked(t.reason);
    assert DuringPromise(u) == HasActivePromiseToPay(t.ptpDate, env.clock.now);
  }

  /** How many of the touches at attempts `k`..`n - 1` offend: all during a promise or
      of a revoked mandate, and otherwise those from the first attempt on that is
      beyond the retry budget or the touch cap. */
  function OffencesFrom(env: Env, t: Task, base: nat, k: int, n: int): nat {
    var first := Min(env.tun.maxRetryAttempts, env.tun.maxTouchesPerCustomer - base);
    if n <= k then 0
    else if HasActivePromiseToPay(t.ptpDate, env.clock.now) || IsMandateRevoked(t.reason) || first <= k then n - k
    else if n <= first then 0
    else n - first
  }

  lemma OffencesNext(env: Env, t: Task, base: nat, k: int, n: int)
    requires k < n
    ensures OffencesFrom(env, t, base, k, n)
            == Bit(Offends(env, t, k, base + k)) + OffencesFrom(env, t, base, k + 1, n)
  {
  }

  lemma {:induction false} TraceOffences(env: Env, t: Task, base: nat, k: nat, left: int)
    requires WellClassified(t) && k <= GUARD
    ensures var steps := RunFrom(MachineOf(env), t, base, k, left).steps;
            Count(RecordedSteps(env.clock.now, t, base, steps), Violates(env.tun))
            == OffencesFrom(env, t, base, k, k + Executions(steps))
    decreases GUARD - k
  {
    hide MachineOf, Violates, WellClassified, WellFormed, Offends, OffencesFrom, RealTouch, Count;
    NoOffences(env, t, base, k);
    NoneCounted(Violates(env.tun));
    if k < GUARD && left > 0 {
      hide RunFrom, RecordedSteps, Executions;
      var m := MachineOf(env);
      MachineIsWellFormed(env);
      MachineTime(env);
      TraceRecordUnfold(m, t, base, k, left, []);
      if m.turn(t, k, base + k).next.None? {
        TurnsAreWellFormed(m, t, k, base + k);
        TraceOffences(env, t, base, k + 1, left - 1);
        OneOffence(env, t, base, k, RunFrom(m, t, base, k + 1, left - 1).steps);
      } else if m.turn(t, k, base + k).step.executed {
        var touch := RealTouch(env.clock.now, t, k, base + k);
        NoOffences(env, t, base, k + 1);
        OneOffence(env, t, base, k, []);
        assert [touch] + [] == [touch];
      }
    }
  }

  /** The first of a trace's touches, and the rest. */
  lemma OneOffence(env: Env, t: Task, base: nat, k: nat, rest: seq<Step>)
    requires WellClassified(t) && MachineOf(env).turn(t, k, base + k).step.executed
    requires Count(RecordedSteps(env.clock.now, t, base, rest), Violates(env.tun))
          == OffencesFrom(env, t, base, k + 1, k + 1 + Executions(rest))
    ensures var touch := RealTouch(env.clock.now, t, k, base + k);
            Count([touch] + RecordedSteps(env.clock.now, t, base, rest), Violates(env.tun))
            == OffencesFrom(env, t, base, k, k + 1 + Executions(rest))
    ensures RecordedSteps(env.clock.now, t, base, []) == [] && Executions([]) == 0
  {
    hide MachineOf, Violates, WellClassified, Offends, OffencesFrom, RealTouch, Count;
    var touch := RealTouch(env.clock.now, t, k, base + k);
    AuditFindsExactly(env, t, k, base + k);
    OffencesNext(env, t, base, k, k + 1 + Executions(rest));
    CountParts([touch], RecordedSteps(env.clock.now, t, base, rest), Violates(env.tun));
    CountNext([], touch, Violates(env.tun));
    NoneCounted(Violates(env.tun));
    assert [] + [touch] == [touch];
  }

  lemma NoOffences(env: Env, t: Task, base: nat, k: int)
    ensures OffencesFrom(env, t, base, k, k) == 0
  {
  }

  lemma NoneCounted(hit: NaiveTouch -> bool)
    ensures Count([], hit) == 0
  {
  }

  lemma CountParts(a: seq<NaiveTouch>, b: seq<NaiveTouch>, hit: NaiveTouch -> bool)
    ensures Count(a + b, hit) == Count(a, hit) + Count(b, hit)
  {
    FilterConcat(a, b, hit);
  }

  /** The offending touches of an event from a book. */
  function OffencesOf(env: Env, t: Task, b: Book): nat
    requires b.left > 0
  {
    var base := b.TouchesOf(t.customerId);
    OffencesFrom(env, t, base, 0, Spend(env, t, base, b.left))
  }

  /** The offending touches of a batch, read off the batch. */
  function ForetoldOffences(env: Env, tasks: seq<Task>, b: Book): nat {
    if tasks == [] then 0
    else if tasks[0].eventId in b.claimed then ForetoldOffences(env, tasks[1..], b)
    else if b.left <= 0 then 0
    else OffencesOf(env, tasks[0], b) + ForetoldOffences(env, tasks[1..], Ahead(env, tasks[0], b))
  }

  function OffendsFrom(env: Env): (Task, Book) -> bool {
    (t: Task, b: Book) => b.left > 0 && OffencesOf(env, t, b) > 0
  }

  /** The violations the auditor reports on the real engine, for any batch of any
      flows: exactly the foretold offences, and some exactly when some event of the
      batch offends. */
  lemma {:induction false} RealViolationsAreForetold(env: Env, tasks: seq<Task>, b: Book)
    requires forall t :: t in tasks ==> WellClassified(t)
    ensures var touches := Recorded(env.clock.now, Process(MachineOf(env), tasks, b).deliveries);
            && CountsOf(env.tun, touches).total == ForetoldOffences(env, tasks, b)
            && (CountsOf(env.tun, touches).total > 0 <==> SomeMeets(env, tasks, b, OffendsFrom(env)))
  {
    hide MachineOf, RunFrom, RecordedSteps, Executions, WellClassified, Violates, Count, Ahead, SomeMeets, OffencesOf,
         Touched;
    var hit := OffendsFrom(env);
    if tasks == [] {
      NoneCounted(Violates(env.tun));
      NoneMeets(env, b, hit);
    } else {
      var m, t, run := MachineOf(env), tasks[0], Process(MachineOf(env), tasks, b);
      SomeMeetsNext(env, tasks, b, hit);
      if t.eventId in b.claimed {
        RealViolationsAreForetold(env, tasks[1..], b);
        assert run.deliveries[1..] == Process(m, tasks[1..], b).deliveries;
        assert [] + Recorded(env.clock.now, run.deliveries[1..]) == Recorded(env.clock.now, run.deliveries[1..]);
      } else if b.left > 0 {
        var d := Drive(m, t, b);
        EventIsForetold(env, t, b);
        OwnOffences(env, t, b);
        RealViolationsAreForetold(env, tasks[1..], Ahead(env, t, b));
        assert run.deliveries[1..] == Process(m, tasks[1..], After(b, d)).deliveries;
        CountParts(RecordedSteps(env.clock.now, t, d.base, d.trace.steps),
                   Recorded(env.clock.now, run.deliveries[1..]), Violates(env.tun));
      } else {
        NoneCounted(Violates(env.tun));
      }
    }
  }

  lemma OwnOffences(env: Env, t: Task, b: Book)
    requires WellClassified(t) && b.left > 0
    ensures var d := Drive(MachineOf(env), t, b);
            Count(RecordedSteps(env.clock.now, t, d.base, d.trace.steps), Violates(env.tun)) == OffencesOf(env, t, b)
  {
    hide MachineOf, RunFrom, RecordedSteps, Executions, WellClassified, Violates, Count, OffencesFrom, Spend;
    var base := b.TouchesOf(t.customerId);
    SpendIsExact(env, t, base, b.left);
    TraceOffences(env, t, base, 0, b.left);
  }

  /** The unreachable customer again: of the eight calls the shipped tunables make,
      the auditor objects to the last five. */
  lemma RealEngineViolates(maxBatch: int)
    requires maxBatch >= 8
    ensures var env := NoonEnv();
            var run := Process(MachineOf(env), PrepareAll([UnreachableCall()]), Opening({}, maxBatch));
            CountsOf(env.tun, Recorded(env.clock.now, run.deliveries)).total == 5
  {
    hide MachineOf, Process, CountsOf, Recorded, Spend, Ahead, RunFrom, Executions, UnreachableCall, Prepare;
    var env, t, b := NoonEnv(), Prepare(UnreachableCall()), Opening({}, maxBatch);
    assert PrepareAll([UnreachableCall()]) == [t];
    UnreachableVoicePassesTheCap(maxBatch);
    ClassifierRange(UnreachableCall());
    RealViolationsAreForetold(env, [t], b);
    SpendIsExact(env, t, 0, maxBatch);
    UnreachableOffences();
    NothingMoreOffends(env, t, b);
  }

  lemma UnreachableOffences()
    ensures OffencesFrom(NoonEnv(), Prepare(UnreachableCall()), 0, 0, 8) == 5
  {
  }

  lemma NothingMoreOffends(env: Env, t: Task, b: Book)
    requires t.eventId !in b.claimed && b.left > 0
    ensures ForetoldOffences(env, [t], b) == OffencesOf(env, t, b)
  {
    hide OffencesOf, Ahead;
    assert [t][1..] == [];
  }

  // ---------- the retry flows pass ----------

  lemma RetriesPass(env: Env, t: Task, k: nat, touches: nat)
    requires RetryFlow(t) && MachineOf(env).turn(t, k, touches).step.executed
    ensures !Violates(env.tun)(RealTouch(env.clock.now, t, k, touches))
  {
    TurnExecutes(env, t, k, touches);
    hide MachineOf;
    assert Decide(env.tun, env.clock, t, k, touches).decision == Retry;
    var u := RealTouch(env.clock.now, t, k, touches);
    assert !FraudRetry(u);
    assert !RevokedRetry(u);
    assert !ForbiddenCall(u);
    assert !OverTouchCap(env.tun)(u);
    assert !OverRetryBudget(env.tun)(u);
    assert !DuringPromise(u);
  }

  lemma {:induction false} TracePasses(env: Env, t: Task, base: nat, k: nat, left: int)
    requires RetryFlow(t) && k <= GUARD
    ensures forall u :: u in RecordedSteps(env.clock.now, t, base, RunFrom(MachineOf(env), t, base, k, left).steps) ==>
                          !Violates(env.tun)(u)
    decreases GUARD - k
  {
    hide MachineOf, Violates, RetryFlow, WellFormed;
    if k < GUARD && left > 0 {
      var m := MachineOf(env);
      var turn := m.turn(t, k, base + k);
      MachineIsWellFormed(env);
      TurnsAreWellFormed(m, t, k, base + k);
      if turn.step.executed {
        RetriesPass(env, t, k, base + k);
      }
      if turn.next.None? {
        TracePasses(env, t, base, k + 1, left - 1);
        assert RunFrom(m, t, base, k, left).steps[1..] == RunFrom(m, t, base, k + 1, left - 1).steps;
      } else {
        assert RunFrom(m, t, base, k, left).steps[1..] == [];
      }
    }
  }

  lemma {:induction false} RunPasses(env: Env, tasks: seq<Task>, b: Book)
    requires forall t :: t in tasks ==> RetryFlow(t)
    ensures forall u ::
              u in Recorded(env.clock.now, Process(MachineOf(env), tasks, b).deliveries)
              ==> !Violates(env.tun)(u)
  {
    hide MachineOf, Violates, RetryFlow, RunFrom, RecordedSteps, Executions;
    if tasks != [] {
      var m, t, run := MachineOf(env), tasks[0], Process(MachineOf(env), tasks, b);
      if t.eventId in b.claimed {
        RunPasses(env, tasks[1..], b);
        assert run.deliveries[1..] == Process(m, tasks[1..], b).deliveries;
      } else if b.left > 0 {
        var d := Drive(m, t, b);
        TracePasses(env, t, d.base, 0, b.left);
        RunPasses(env, tasks[1..], After(b, d));
        assert run.deliveries[1..] == Process(m, tasks[1..], After(b, d)).deliveries;
      }
    }
  }

  /** The real engine passes the auditor it is compared with: the touches of any
      batch of retry flows, recorded as the naive run records its own, contain no
      violation under any tunables. */
  lemma {:induction false} RealEnginePassesTheAudit(env: Env, tasks: seq<Task>, claimed: set<string>, maxBatch: int)
    requires forall t :: t in tasks ==> RetryFlow(t)
    ensures var touches := Recorded(env.clock.now,
                                    Process(MachineOf(env), tasks, Opening(claimed, maxBatch)).deliveries);
            && CountersMatch([], touches)
            && CountsOf(env.tun, touches) == ViolationCounts(0, 0, 0, 0, 0, 0, 0, 0)
  {
    hide MachineOf, WellFormed, Process, RetryFlow, CountersMatch, Violates, CountsOf;
    var b := Opening(claimed, maxBatch);
    var touches := Recorded(env.clock.now, Process(MachineOf(env), tasks, b).deliveries);
    MachineIsWellFormed(env);
    RunPasses(env, tasks, b);
    NoTouchesYet(b);
    RecordedCounters(MachineOf(env), tasks, b, []);
    MachineTime(env);
    NoViolations(env.tun, touches);
    TotalCountsTouches(env.tun, touches);
  }

  lemma NoViolations(p: Tunables, touches: seq<NaiveTouch>)
    requires forall u :: u in touches ==> !Violates(p)(u)
    ensures CountsOf(p, touches).total == 0
  {
    FilterNone(touches, Violates(p));
  }

  lemma NoTouchesYet(b: Book)
    requires b.touches.counts == map[]
    ensures CountersAgree(b, [])
  {
  }
}
