/** A batch read off its events: an event's quota and first success fix what it
    spends, so the touch counters, the claims and the budget after any part of a
    batch are known before it is run (go/rz/runner.go:34-217). */
module Forecast {
  import opened Types
  import opened Classify
  import opened Loop
  import opened Runner
  import opened Bounds
  import opened Quota
  import opened Metrics
  import opened Settlement

  /** The touches an event takes. */
  function Spend(env: Env, t: Task, base: nat, left: nat): nat {
    Min(Min(Quota.Quota(env, t, base), FirstSuccess(env.draw, t, 0) + 1), Min(GUARD, left))
  }

  /** The steps after which the event is through, whatever the budget: its touches
      and, unless the last one succeeds, the decision that ends it. */
  function StepsNeeded(env: Env, t: Task, base: nat): nat {
    Min(Min(Quota.Quota(env, t, base), FirstSuccess(env.draw, t, 0)) + 1, GUARD)
  }

  /** The book after one more fresh event. */
  function Ahead(env: Env, t: Task, b: Book): Book
    requires b.left > 0
  {
    var base := b.TouchesOf(t.customerId);
    Book(b.claimed + {t.eventId}, Touched(b.touches, t.customerId, Spend(env, t, base, b.left)),
         b.left - Min(StepsNeeded(env, t, base), b.left))
  }

  datatype Outlook = Outlook(book: Book, limitHit: bool)

  /** The book and the limit flag a batch will end with. */
  function Foretell(env: Env, tasks: seq<Task>, b: Book): Outlook {
    if tasks == [] then Outlook(b, false)
    else if tasks[0].eventId in b.claimed then Foretell(env, tasks[1..], b)
    else if b.left <= 0 then Outlook(b.(claimed := b.claimed + {tasks[0].eventId}), true)
    else
      var rest := Foretell(env, tasks[1..], Ahead(env, tasks[0], b));
      rest.(limitHit := b.left < StepsNeeded(env, tasks[0], b.TouchesOf(tasks[0].customerId)) || rest.limitHit)
  }

  /** The book when event `i` is reached. */
  function BookBefore(env: Env, tasks: seq<Task>, b: Book, i: nat): Book
    requires i <= |tasks|
  {
    Foretell(env, tasks[..i], b).book
  }

  // ---------- one event ----------

  lemma {:induction false} StepsTaken(m: Machine, t: Task, base: nat, k: nat, left: nat, quota: nat, f: nat)
    requires WellFormed(m) && ActsBelow(m, t, base, quota) && EndsAt(m, t, base, quota, f)
    requires k <= GUARD && k <= quota && k <= f
    ensures var tr, needed := RunFrom(m, t, base, k, left), Min(Min(quota, f) + 1, GUARD) - k;
            |tr.steps| == Min(needed, left) && (tr.end.BudgetCut? <==> left < needed)
    decreases GUARD - k
  {
    if k < GUARD && left > 0 {
      var turn := TurnAt(m, t, base, k);
      TurnsAreWellFormed(m, t, k, base + k);
      hide WellFormed;
      if turn.next.None? {
        StepsTaken(m, t, base, k + 1, left - 1, quota, f);
      }
    }
  }

  /** What one event spends, in closed form. */
  lemma EventIsForetold(env: Env, t: Task, b: Book)
    requires b.left > 0
    ensures var d := Drive(MachineOf(env), t, b);
            && After(b, d) == Ahead(env, t, b)
            && (d.trace.end.BudgetCut? <==> b.left < StepsNeeded(env, t, d.base))
  {
    hide MachineOf, RunFrom, Quota.Quota, FirstSuccess, Executions, ActsBelow, EndsAt, WellFormed;
    var base := b.TouchesOf(t.customerId);
    EngineActsBelowQuota(env, t, base);
    MachineIsWellFormed(env);
    ExactExecutions(env, t, base, b.left);
    StepsTaken(MachineOf(env), t, base, 0, b.left, Quota.Quota(env, t, base), FirstSuccess(env.draw, t, 0));
  }

  lemma SpendIsExact(env: Env, t: Task, base: nat, left: nat)
    ensures Executions(RunFrom(MachineOf(env), t, base, 0, left).steps) == Spend(env, t, base, left)
  {
    hide MachineOf, RunFrom, Executions, FirstSuccess;
    ExactExecutions(env, t, base, left);
  }

  // ---------- the whole batch ----------

  /** Every run is foretold: claims, touch counters, remaining budget and limit flag
      after any batch, from any book. */
  lemma {:induction false} BatchIsForetold(env: Env, tasks: seq<Task>, b: Book)
    ensures var run := Process(MachineOf(env), tasks, b);
            Foretell(env, tasks, b) == Outlook(run.book, run.limitHit)
  {
    hide MachineOf, RunFrom, Ahead, After, StepsNeeded;
    if tasks != [] {
      if tasks[0].eventId in b.claimed {
        BatchIsForetold(env, tasks[1..], b);
      } else if b.left > 0 {
        EventIsForetold(env, tasks[0], b);
        BatchIsForetold(env, tasks[1..], Ahead(env, tasks[0], b));
      }
    }
  }

  lemma BookBeforeNext(env: Env, tasks: seq<Task>, b: Book, i: nat)
    requires 0 < i <= |tasks|
    ensures BookBefore(env, tasks, b, i) ==
            if tasks[0].eventId in b.claimed then BookBefore(env, tasks[1..], b, i - 1)
            else if b.left <= 0 then b.(claimed := b.claimed + {tasks[0].eventId})
            else BookBefore(env, tasks[1..], Ahead(env, tasks[0], b), i - 1)
  {
    hide Ahead, StepsNeeded;
    assert tasks[..i][0] == tasks[0] && tasks[..i][1..] == tasks[1..][..i - 1];
  }

  /** Every delivery starts from the foretold book. */
  lemma {:induction false} DeliveryIsForetold(env: Env, tasks: seq<Task>, b: Book, i: nat)
    requires i < |tasks| && i < |Process(MachineOf(env), tasks, b).deliveries|
    ensures var d, before := Process(MachineOf(env), tasks, b).deliveries[i], BookBefore(env, tasks, b, i);
            && (d.Fresh? <==> tasks[i].eventId !in before.claimed)
            && (d.Fresh? ==> before.left > 0 && d == Drive(MachineOf(env), tasks[i], before))
    decreases tasks
  {
    hide MachineOf, RunFrom, Ahead, After, StepsNeeded, BookBefore;
    var t := tasks[0];
    if i == 0 {
      assert BookBefore(env, tasks, b, 0) == b by { NothingForetold(env, tasks, b); }
    } else {
      BookBeforeNext(env, tasks, b, i);
      if t.eventId in b.claimed {
        DeliveryIsForetold(env, tasks[1..], b, i - 1);
      } else {
        EventIsForetold(env, t, b);
        DeliveryIsForetold(env, tasks[1..], Ahead(env, t, b), i - 1);
      }
    }
  }

  lemma NothingForetold(env: Env, tasks: seq<Task>, b: Book)
    ensures BookBefore(env, tasks, b, 0) == b
  {
  }

  // ---------- some event of a batch ----------

  /** Event `i` is reached within the budget, is the first claim of its id, and from
      the foretold book meets the condition. */
  predicate MeetsAt(env: Env, tasks: seq<Task>, b: Book, i: nat, hit: (Task, Book) -> bool)
    requires i < |tasks|
  {
    var before := BookBefore(env, tasks, b, i);
    before.left > 0 && tasks[i].eventId !in before.claimed && hit(tasks[i], before)
  }

  predicate SomeMeets(env: Env, tasks: seq<Task>, b: Book, hit: (Task, Book) -> bool) {
    exists i :: 0 <= i < |tasks| && MeetsAt(env, tasks, b, i, hit)
  }

  lemma SomeMeetsNext(env: Env, tasks: seq<Task>, b: Book, hit: (Task, Book) -> bool)
    requires tasks != []
    ensures SomeMeets(env, tasks, b, hit) <==>
              if tasks[0].eventId in b.claimed then SomeMeets(env, tasks[1..], b, hit)
              else b.left > 0 && (hit(tasks[0], b) || SomeMeets(env, tasks[1..], Ahead(env, tasks[0], b), hit))
  {
    hide Ahead, BookBefore;
    var t := tasks[0];
    NothingForetold(env, tasks, b);
    if t.eventId !in b.claimed && b.left <= 0 {
      forall i | 1 <= i < |tasks| { BookBeforeNext(env, tasks, b, i); }
    } else {
      var b' := if t.eventId in b.claimed then b else Ahead(env, t, b);
      forall i | 1 <= i < |tasks|
        ensures MeetsAt(env, tasks, b, i, hit) <==> MeetsAt(env, tasks[1..], b', i - 1, hit)
      {
        BookBeforeNext(env, tasks, b, i);
      }
      SomeMeetsShift(env, tasks, b, b', hit);
    }
  }

  lemma SomeMeetsShift(env: Env, tasks: seq<Task>, b: Book, b': Book, hit: (Task, Book) -> bool)
    requires tasks != []
    requires forall i :: 1 <= i < |tasks| ==>
               (MeetsAt(env, tasks, b, i, hit) <==> MeetsAt(env, tasks[1..], b', i - 1, hit))
    ensures SomeMeets(env, tasks, b, hit) <==> MeetsAt(env, tasks, b, 0, hit) || SomeMeets(env, tasks[1..], b', hit)
  {
    hide MeetsAt;
    if j :| 0 <= j < |tasks[1..]| && MeetsAt(env, tasks[1..], b', j, hit) {
      assert MeetsAt(env, tasks, b, j + 1, hit);
    }
  }

  // ---------- the touch cap ----------

  /** From this book the event takes the customer past the touch cap. */
  function PassesCap(env: Env, customer: string): (Task, Book) -> bool {
    (t: Task, b: Book) => t.customerId == customer && Overruns(env, t, b.TouchesOf(customer), b.left)
  }

  /** Over a whole batch, within its limit or not: a customer who starts within the
      cap ends above it exactly when one of the events, read off the batch, takes
      them past it. */
  lemma {:induction false} CapIsExceededExactlyWhen(env: Env, tasks: seq<Task>, b: Book, customer: string)
    requires b.TouchesOf(customer) <= env.tun.maxTouchesPerCustomer
    ensures Process(MachineOf(env), tasks, b).book.TouchesOf(customer) > env.tun.maxTouchesPerCustomer <==>
            SomeMeets(env, tasks, b, PassesCap(env, customer))
    decreases tasks
  {
    hide RunFrom, Executions, MachineOf, Touched, SomeMeets, PassesCap, Ahead;
    if tasks == [] {
      assert !SomeMeets(env, tasks, b, PassesCap(env, customer)) by { NoneMeets(env, b, PassesCap(env, customer)); }
    } else {
      var t := tasks[0];
      SomeMeetsNext(env, tasks, b, PassesCap(env, customer));
      if t.eventId in b.claimed {
        CapIsExceededExactlyWhen(env, tasks[1..], b, customer);
      } else if b.left > 0 {
        EventIsForetold(env, t, b);
        EventPassesCap(env, t, b, customer);
        var b' := Ahead(env, t, b);
        if b'.TouchesOf(customer) > env.tun.maxTouchesPerCustomer {
          CountersCountExecutions(MachineOf(env), tasks[1..], b', customer);
        } else {
          CapIsExceededExactlyWhen(env, tasks[1..], b', customer);
        }
      }
    }
  }

  lemma NoneMeets(env: Env, b: Book, hit: (Task, Book) -> bool)
    ensures !SomeMeets(env, [], b, hit)
  {
  }

  lemma EventPassesCap(env: Env, t: Task, b: Book, customer: string)
    requires b.left > 0 && b.TouchesOf(customer) <= env.tun.maxTouchesPerCustomer
    ensures PassesCap(env, customer)(t, b) <==> Ahead(env, t, b).TouchesOf(customer) > env.tun.maxTouchesPerCustomer
  {
    hide RunFrom, Executions, MachineOf, Overruns, Ahead;
    var d := Drive(MachineOf(env), t, b);
    EventIsForetold(env, t, b);
    TouchesAfter(MachineOf(env), b, d, customer);
    if t.customerId == customer {
      CapIsPassedExactlyWhen(env, t, d.base, d.left);
    }
  }

  // ---------- the touches the metrics report ----------

  /** From this book the event is touched, and its first touch fails. */
  function FailsATouch(env: Env): (Task, Book) -> bool {
    (t: Task, b: Book) =>
      b.left > 0 && Spend(env, t, b.TouchesOf(t.customerId), b.left) > 0 && FirstSuccess(env.draw, t, 0) > 0
  }

  /** `touchesSent` is the number of touches exactly when no event, read off the
      batch, fails its first touch. */
  lemma {:induction false} TouchesSentIsRightExactlyWhen(env: Env, tasks: seq<Task>, b: Book)
    ensures var ds := Process(MachineOf(env), tasks, b).deliveries;
            MetricsOf(RunRows(MachineOf(env), tasks, b)).touchesSent == Sum(ds, ExecutionsOf()) <==>
            !SomeMeets(env, tasks, b, FailsATouch(env))
  {
    hide MetricsOf, RunRows, Process, Sum, SomeMeets, MachineOf, ExecutionsOf, RecoveredByTouch;
    TouchesSentCountsFailuresTwice(env, tasks, b);
    FailuresAreForetold(env, tasks, b);
  }

  lemma {:induction false} FailuresAreForetold(env: Env, tasks: seq<Task>, b: Book)
    ensures var ds := Process(MachineOf(env), tasks, b).deliveries;
            && Sum(ds, ExecutionsOf()) >= Sum(ds, RecoveredByTouch())
            && (Sum(ds, ExecutionsOf()) == Sum(ds, RecoveredByTouch()) <==> !SomeMeets(env, tasks, b, FailsATouch(env)))
  {
    hide RunFrom, Executions, MachineOf, ByTouch, SomeMeets, Ahead, Touched, FirstSuccess;
    if tasks == [] {
      NoneMeets(env, b, FailsATouch(env));
    } else {
      var t, run := tasks[0], Process(MachineOf(env), tasks, b);
      SomeMeetsNext(env, tasks, b, FailsATouch(env));
      if t.eventId in b.claimed {
        FailuresAreForetold(env, tasks[1..], b);
        assert run.deliveries[1..] == Process(MachineOf(env), tasks[1..], b).deliveries;
      } else if b.left > 0 {
        var d := Drive(MachineOf(env), t, b);
        EventIsForetold(env, t, b);
        ExactExecutions(env, t, d.base, d.left);
        FailuresAreForetold(env, tasks[1..], Ahead(env, t, b));
        assert run.deliveries[1..] == Process(MachineOf(env), tasks[1..], After(b, d)).deliveries;
      }
    }
  }
}
