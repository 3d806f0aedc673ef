/** Customer isolation: what a batch does to one customer does not depend on the
    other customers in it (go/rz/runner.go:41-217). */
module Isolation {
  import opened Types
  import opened Classify
  import opened Loop

  function TaskOf(customer: string): Task -> bool { (t: Task) => t.customerId == customer }

  function RowFor(customer: string): Row -> bool { (r: Row) => r.customerId == customer }

  /** No event id is used by two customers. */
  predicate IdsNotShared(tasks: seq<Task>) {
    forall i, j :: 0 <= i < |tasks| && 0 <= j < |tasks| && tasks[i].eventId == tasks[j].eventId ==>
                     tasks[i].customerId == tasks[j].customerId
  }

  /** Two books that look alike to one customer; the second has no less budget. */
  predicate AlikeFor(customer: string, tasks: seq<Task>, b: Book, c: Book) {
    && b.TouchesOf(customer) == c.TouchesOf(customer)
    && b.left <= c.left
    && (forall t :: t in tasks && t.customerId == customer ==> (t.eventId in b.claimed <==> t.eventId in c.claimed))
  }

  /** More budget does not change an event that its budget did not cut. */
  lemma {:induction false} MoreBudget(m: Machine, t: Task, base: nat, k: nat, left: int, more: int)
    requires k <= GUARD && left <= more
    requires !RunFrom(m, t, base, k, left).end.BudgetCut?
    ensures RunFrom(m, t, base, k, more) == RunFrom(m, t, base, k, left)
    decreases GUARD - k
  {
    if k < GUARD && left > 0 && m.turn(t, k, base + k).next.None? {
      MoreBudget(m, t, base, k + 1, left - 1, more - 1);
    }
  }

  lemma {:induction false} RowsOfOneDelivery(m: Machine, t: Task, b: Book, customer: string)
    requires WellFormed(m)
    ensures var rows := RowsOfSteps(Drive(m, t, b).trace.steps);
            Filter(rows, RowFor(customer)) == if t.customerId == customer then rows else []
    ensures Filter([DuplicateRow(m.now, t)], RowFor(customer)) ==
              if t.customerId == customer then [DuplicateRow(m.now, t)] else []
  {
    var rows := RowsOfSteps(Drive(m, t, b).trace.steps);
    TraceRows(m, t, b.TouchesOf(t.customerId), 0, b.left);
    if t.customerId == customer {
      FilterAll(rows, RowFor(customer));
    } else {
      FilterNone(rows, RowFor(customer));
    }
  }

  lemma {:induction false} AlikeAfterOwn(m: Machine, tasks: seq<Task>, b: Book, c: Book)
    requires tasks != [] && AlikeFor(tasks[0].customerId, tasks, b, c)
    requires !Drive(m, tasks[0], b).trace.end.BudgetCut?
    ensures Drive(m, tasks[0], c).trace == Drive(m, tasks[0], b).trace
    ensures AlikeFor(tasks[0].customerId, tasks[1..], After(b, Drive(m, tasks[0], b)), After(c, Drive(m, tasks[0], c)))
  {
    MoreBudget(m, tasks[0], b.TouchesOf(tasks[0].customerId), 0, b.left, c.left);
  }

  lemma AlikeAfterOther(m: Machine, tasks: seq<Task>, b: Book, c: Book, customer: string)
    requires tasks != [] && IdsNotShared(tasks) && AlikeFor(customer, tasks, b, c)
    requires tasks[0].customerId != customer
    ensures AlikeFor(customer, tasks[1..], After(b, Drive(m, tasks[0], b)), c)
  {
  }

  lemma OwnUnfold(tasks: seq<Task>, customer: string)
    requires tasks != []
    ensures var own, rest := Filter(tasks, TaskOf(customer)), Filter(tasks[1..], TaskOf(customer));
            if tasks[0].customerId == customer then own != [] && own[0] == tasks[0] && own[1..] == rest else own == rest
  {
    assert TaskOf(customer)(tasks[0]) == (tasks[0].customerId == customer);
  }

  lemma {:induction false} IsolationStep(m: Machine, tasks: seq<Task>, b: Book, c: Book, customer: string)
    requires WellFormed(m) && IdsNotShared(tasks) && AlikeFor(customer, tasks, b, c)
    requires !Process(m, tasks, b).limitHit
    ensures !Process(m, Filter(tasks, TaskOf(customer)), c).limitHit
    ensures RunRows(m, Filter(tasks, TaskOf(customer)), c) == Filter(RunRows(m, tasks, b), RowFor(customer))
    decreases tasks, 2
  {
    if tasks != [] {
      RunRowsUnfold(m, tasks, b);
      if tasks[0].eventId in b.claimed {
        DuplicateStep(m, tasks, b, c, customer);
      } else {
        FreshStep(m, tasks, b, c, customer);
      }
    }
  }

  lemma {:induction false} DuplicateStep(m: Machine, tasks: seq<Task>, b: Book, c: Book, customer: string)
    requires WellFormed(m) && IdsNotShared(tasks) && AlikeFor(customer, tasks, b, c)
    requires tasks != [] && tasks[0].eventId in b.claimed
    requires !Process(m, tasks[1..], b).limitHit
    ensures !Process(m, Filter(tasks, TaskOf(customer)), c).limitHit
    ensures RunRows(m, Filter(tasks, TaskOf(customer)), c)
         == Filter([DuplicateRow(m.now, tasks[0])] + RunRows(m, tasks[1..], b), RowFor(customer))
    decreases tasks, 0
  {
    var t, rest, own := tasks[0], tasks[1..], Filter(tasks, TaskOf(customer));
    OwnUnfold(tasks, customer);
    IsolationStep(m, rest, b, c, customer);
    FilterConcat([DuplicateRow(m.now, t)], RunRows(m, rest, b), RowFor(customer));
    RowsOfOneDelivery(m, t, b, customer);
    if t.customerId == customer {
      RunRowsUnfold(m, own, c);
    }
    hide *;
  }

  lemma {:induction false} FreshStep(m: Machine, tasks: seq<Task>, b: Book, c: Book, customer: string)
    requires WellFormed(m) && IdsNotShared(tasks) && AlikeFor(customer, tasks, b, c)
    requires tasks != [] && tasks[0].eventId !in b.claimed && b.left > 0
    requires !Drive(m, tasks[0], b).trace.end.BudgetCut?
    requires !Process(m, tasks[1..], After(b, Drive(m, tasks[0], b))).limitHit
    ensures !Process(m, Filter(tasks, TaskOf(customer)), c).limitHit
    ensures RunRows(m, Filter(tasks, TaskOf(customer)), c)
         == Filter(RowsOfSteps(Drive(m, tasks[0], b).trace.steps)
                   + RunRows(m, tasks[1..], After(b, Drive(m, tasks[0], b))), RowFor(customer))
    decreases tasks, 1
  {
    if tasks[0].customerId == customer {
      OwnFreshStep(m, tasks, b, c);
    } else {
      OtherFreshStep(m, tasks, b, c, customer);
    }
    hide *;
  }

  lemma {:induction false} OwnFreshStep(m: Machine, tasks: seq<Task>, b: Book, c: Book)
    requires tasks != [] && tasks[0].eventId !in b.claimed && b.left > 0
    requires WellFormed(m) && IdsNotShared(tasks) && AlikeFor(tasks[0].customerId, tasks, b, c)
    requires !Drive(m, tasks[0], b).trace.end.BudgetCut?
    requires !Process(m, tasks[1..], After(b, Drive(m, tasks[0], b))).limitHit
    ensures var customer := tasks[0].customerId;
            && !Process(m, Filter(tasks, TaskOf(customer)), c).limitHit
            && RunRows(m, Filter(tasks, TaskOf(customer)), c)
               == Filter(RowsOfSteps(Drive(m, tasks[0], b).trace.steps)
                         + RunRows(m, tasks[1..], After(b, Drive(m, tasks[0], b))), RowFor(customer))
    decreases tasks, 0
  {
    hide RunRows, Process, RowsOfSteps, RunFrom, WellFormed, IdsNotShared, After, Filter;
    var t, customer := tasks[0], tasks[0].customerId;
    var d := Drive(m, t, b);
    OwnUnfold(tasks, customer);
    SharedByTail(tasks);
    FilterConcat(RowsOfSteps(d.trace.steps), RunRows(m, tasks[1..], After(b, d)), RowFor(customer));
    RowsOfOneDelivery(m, t, b, customer);
    AlikeAfterOwn(m, tasks, b, c);
    IsolationStep(m, tasks[1..], After(b, d), After(c, Drive(m, t, c)), customer);
    RunRowsUnfold(m, Filter(tasks, TaskOf(customer)), c);
  }

  lemma {:induction false} OtherFreshStep(m: Machine, tasks: seq<Task>, b: Book, c: Book, customer: string)
    requires tasks != [] && tasks[0].eventId !in b.claimed && b.left > 0 && tasks[0].customerId != customer
    requires WellFormed(m) && IdsNotShared(tasks) && AlikeFor(customer, tasks, b, c)
    requires !Process(m, tasks[1..], After(b, Drive(m, tasks[0], b))).limitHit
    ensures !Process(m, Filter(tasks, TaskOf(customer)), c).limitHit
    ensures RunRows(m, Filter(tasks, TaskOf(customer)), c)
         == Filter(RowsOfSteps(Drive(m, tasks[0], b).trace.steps)
                   + RunRows(m, tasks[1..], After(b, Drive(m, tasks[0], b))), RowFor(customer))
    decreases tasks, 0
  {
    hide RunRows, Process, RowsOfSteps, RunFrom, WellFormed, IdsNotShared, After, Filter;
    var d := Drive(m, tasks[0], b);
    OwnUnfold(tasks, customer);
    SharedByTail(tasks);
    FilterConcat(RowsOfSteps(d.trace.steps), RunRows(m, tasks[1..], After(b, d)), RowFor(customer));
    RowsOfOneDelivery(m, tasks[0], b, customer);
    AlikeAfterOther(m, tasks, b, c, customer);
    IsolationStep(m, tasks[1..], After(b, d), c, customer);
    assert [] + Filter(RunRows(m, tasks[1..], After(b, d)), RowFor(customer))
        == Filter(RunRows(m, tasks[1..], After(b, d)), RowFor(customer));
  }

  lemma SharedByTail(tasks: seq<Task>)
    requires tasks != [] && IdsNotShared(tasks)
    ensures IdsNotShared(tasks[1..])
  {
  }

  /** When the whole batch stays within its budget, a customer's rows are exactly
      the rows of running that customer's events alone - from any earlier claims,
      touch counters and budget. */
  lemma {:induction false} CustomerIsolation(m: Machine, tasks: seq<Task>, b: Book, customer: string)
    requires WellFormed(m) && IdsNotShared(tasks)
    requires !Process(m, tasks, b).limitHit
    ensures !Process(m, Filter(tasks, TaskOf(customer)), b).limitHit
    ensures RunRows(m, Filter(tasks, TaskOf(customer)), b) == Filter(RunRows(m, tasks, b), RowFor(customer))
  {
    IsolationStep(m, tasks, b, b, customer);
  }

  /** Hence any two interleavings of the same per-customer event streams write the
      same rows for every customer. */
  lemma {:induction false} InterleavingIsIrrelevant(m: Machine, tasks: seq<Task>, others: seq<Task>, b: Book,
                                                    customer: string)
    requires WellFormed(m) && IdsNotShared(tasks) && IdsNotShared(others)
    requires Filter(tasks, TaskOf(customer)) == Filter(others, TaskOf(customer))
    requires !Process(m, tasks, b).limitHit && !Process(m, others, b).limitHit
    ensures Filter(RunRows(m, tasks, b), RowFor(customer)) == Filter(RunRows(m, others, b), RowFor(customer))
  {
    CustomerIsolation(m, tasks, b, customer);
    CustomerIsolation(m, others, b, customer);
  }
}
