/** The retry budget that README.md:159 promises per invoice: the code counts the
    attempts of an event (go/rz/runner.go:98-164, go/rz/rules.go:50-58). */
module Invoices {
  import opened Types
  import opened Classify
  import opened Rules
  import opened Execution
  import opened Loop
  import opened Runner
  import opened Policy
  import opened Quota
  import opened Forecast

  predicate RetriesInvoice(t: Task, invoice: string) { RetryFlow(t) && t.invoiceId == invoice }

  /** The retries a run executed for an invoice. */
  function RetriesOf(ds: seq<Delivery>, invoice: string): nat {
    if ds == [] then 0
    else (if ds[0].Fresh? && RetriesInvoice(ds[0].task, invoice) then Executions(ds[0].trace.steps) else 0)
         + RetriesOf(ds[1..], invoice)
  }

  /** The same, read off the batch. */
  function ForetoldRetries(env: Env, tasks: seq<Task>, b: Book, invoice: string): nat {
    if tasks == [] then 0
    else if tasks[0].eventId in b.claimed then ForetoldRetries(env, tasks[1..], b, invoice)
    else if b.left <= 0 then 0
    else
      var t := tasks[0];
      (if RetriesInvoice(t, invoice) then Spend(env, t, b.TouchesOf(t.customerId), b.left) else 0)
      + ForetoldRetries(env, tasks[1..], Ahead(env, t, b), invoice)
  }

  /** An event keeps the retry budget. */
  lemma EventKeepsTheBudget(env: Env, t: Task, base: nat, left: nat)
    requires RetryFlow(t)
    ensures Spend(env, t, base, left) <= if env.tun.maxRetryAttempts > 0 then env.tun.maxRetryAttempts else 0
  {
    hide FirstSuccess;
  }

  /** An invoice is retried as often as its events together: exactly the sum of what
      they are foretold to spend, each within the budget. So the budget is kept per
      invoice exactly when that sum keeps it. */
  lemma {:induction false} RetriesAreForetold(env: Env, tasks: seq<Task>, b: Book, invoice: string)
    ensures RetriesOf(Process(MachineOf(env), tasks, b).deliveries, invoice) == ForetoldRetries(env, tasks, b, invoice)
  {
    hide RunFrom, Executions, MachineOf, Spend, Ahead, Touched;
    if tasks != [] {
      var t, run := tasks[0], Process(MachineOf(env), tasks, b);
      if t.eventId in b.claimed {
        RetriesAreForetold(env, tasks[1..], b, invoice);
        assert run.deliveries[1..] == Process(MachineOf(env), tasks[1..], b).deliveries;
      } else if b.left > 0 {
        var d := Drive(MachineOf(env), t, b);
        EventIsForetold(env, t, b);
        SpendIsExact(env, t, d.base, d.left);
        RetriesAreForetold(env, tasks[1..], Ahead(env, t, b), invoice);
        assert run.deliveries[1..] == Process(MachineOf(env), tasks[1..], After(b, d)).deliveries;
      }
    }
  }

  // ---------- one invoice, two events ----------

  /** A charge of invoice "i" whose payer abandons the authentication. */
  function Charge(id: string, customer: string): Event {
    Event(id, FailedSubscription, customer, 100000, "INR", "i", map["error_code" := Text("AUTH_FAILED")])
  }

  lemma ChargesAre(id: string, customer: string)
    ensures var t := Prepare(Charge(id, customer));
            && t.eventId == id && t.flow == FailedSubscription && t.customerId == customer && t.invoiceId == "i"
            && t.reason == Auth3dsAbandoned && t.ptpDate == None
  {
    assert Upper("AUTH_FAILED") == "AUTH_FAILED";
  }

  lemma SecondDraws()
    ensures SeededRandom("g", 0) >= 0.3 && SeededRandom("g", 1) >= 0.3 && SeededRandom("g", 2) >= 0.3
  {
    assert CodeSum("g") == 103 by { assert "g"[..0] == ""; }
    hide SeededRandom, CodeSum;
    DrawIs("g", 0, 63, 2823943735);
    DrawIs("g", 1, 6227, 1333375644);
    DrawIs("g", 2, 12390, 4137774849);
  }

  lemma ChargesFail(id: string, customer: string)
    requires id == "t" || id == "g"
    ensures forall k: nat :: k < 3 ==> !Succeeds(NoonEnv().draw, Prepare(Charge(id, customer)), k)
  {
    hide SeededRandom, Prepare, Charge;
    ChargesAre(id, customer);
    EarlyDraws();
    SecondDraws();
    forall k: nat | k < 3 ensures !Succeeds(NoonEnv().draw, Prepare(Charge(id, customer)), k) {
      assert SeededRandom(id, k) >= 0.3;
    }
  }

  lemma ChargeSpends(id: string, customer: string, left: nat)
    requires (id == "t" || id == "g") && left >= 4
    ensures var t := Prepare(Charge(id, customer));
            Spend(NoonEnv(), t, 0, left) == 3 && StepsNeeded(NoonEnv(), t, 0) == 4
  {
    hide Prepare, Succeeds, SeededRandom;
    ChargesAre(id, customer);
    ChargesFail(id, customer);
  }

  /** With the shipped tunables and the source's generator, two events of one invoice
      are retried six times together, against a budget of three. */
  lemma {:induction false} SharedInvoicePassesTheBudget(maxBatch: int)
    requires maxBatch >= 8
    ensures var tasks := PrepareAll([Charge("t", "c"), Charge("g", "d")]);
            var run := Process(MachineOf(NoonEnv()), tasks, Opening({}, maxBatch));
            && NoonEnv().tun.maxRetryAttempts == 3 && !run.limitHit
            && RetriesOf(run.deliveries, "i") == 6
  {
    hide Process, MachineOf, Spend, StepsNeeded, Prepare, RetriesOf, Charge, Foretell, ForetoldRetries;
    var env, b := NoonEnv(), Opening({}, maxBatch);
    var x, y := Prepare(Charge("t", "c")), Prepare(Charge("g", "d"));
    assert PrepareAll([Charge("t", "c"), Charge("g", "d")]) == [x, y];
    ChargesAre("t", "c");
    ChargesAre("g", "d");
    ChargeSpends("t", "c", maxBatch);
    ChargeSpends("g", "d", maxBatch - 4);
    assert "t"[0] != "g"[0] && "c"[0] != "d"[0];
    TwoEvents(env, x, y, b);
    RetriesAreForetold(env, [x, y], b, "i");
    BatchIsForetold(env, [x, y], b);
  }

  lemma TwoEvents(env: Env, x: Task, y: Task, b: Book)
    requires x.eventId !in b.claimed && y.eventId !in b.claimed && x.eventId != y.eventId
    requires x.customerId != y.customerId && RetriesInvoice(x, "i") && RetriesInvoice(y, "i")
    requires b.left >= StepsNeeded(env, x, b.TouchesOf(x.customerId)) + StepsNeeded(env, y, b.TouchesOf(y.customerId))
    requires StepsNeeded(env, x, b.TouchesOf(x.customerId)) > 0 && StepsNeeded(env, y, b.TouchesOf(y.customerId)) > 0
    ensures !Foretell(env, [x, y], b).limitHit
    ensures ForetoldRetries(env, [x, y], b, "i") ==
              Spend(env, x, b.TouchesOf(x.customerId), b.left)
              + Spend(env, y, b.TouchesOf(y.customerId), b.left - StepsNeeded(env, x, b.TouchesOf(x.customerId)))
  {
    hide Spend, StepsNeeded, RetriesInvoice;
    var b' := Ahead(env, x, b);
    assert b'.TouchesOf(y.customerId) == b.TouchesOf(y.customerId);
    assert b'.left == b.left - StepsNeeded(env, x, b.TouchesOf(x.customerId));
    assert [x, y][1..] == [y] && [y][1..] == [];
    hide Ahead;
    assert !Foretell(env, [y], b').limitHit;
    assert ForetoldRetries(env, [y], b', "i") == Spend(env, y, b'.TouchesOf(y.customerId), b'.left);
  }
}
