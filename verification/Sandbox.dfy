/** The backtest sandbox (go/rz/sandbox.go:111-214): the same batch under other
    tunables, which live in one mutable global (go/rz/rules.go:16-38). */
module Sandbox {
  import opened Types
  import opened Classify
  import opened Rules
  import opened Execution
  import opened Loop
  import opened Runner
  import opened Chain
  import opened Store
  import opened Orchestrator
  import opened Metrics
  import opened Locked

  /** The package's current tunables. */
  class PolicyConfig {
    var tunables: Tunables

    constructor ()
      ensures tunables == DEFAULT_TUNABLES
    {
      tunables := DEFAULT_TUNABLES;
    }

    method SetTunables(t: Tunables) returns (current: Tunables)
      modifies this
      ensures current == tunables == t
    {
      tunables := t;
      current := tunables;
    }

    method SetTunableField(apply: Tunables -> Tunables) returns (current: Tunables)
      modifies this
      ensures current == tunables == apply(old(tunables))
    {
      var t := tunables;
      t := apply(t);
      tunables := t;
      current := tunables;
    }

    method ResetTunables() returns (current: Tunables)
      modifies this
      ensures current == tunables == Tunables(3, 3, 2, 2, 50000, 2000000, 3, 60)
    {
      tunables := DEFAULT_TUNABLES;
      current := tunables;
    }
  }

  datatype SandboxResult = SandboxResult(tunables: Tunables, metrics: Metrics, touchCount: nat,
                                         violations: LockedViolations)

  /** The states whose names the touch counter matches, on engine rows. */
  predicate ScenarioTouch(r: Row) {
    r.actor.PolicyEngine? && r.state in {RetryScheduled, Retrying, ContactScheduled, Contacting, Recovered}
  }

  /** The run a scenario makes: on an empty store, with the default budget. */
  function ScenarioRun(env: Env, events: seq<Event>): Run {
    Process(MachineOf(env), PrepareAll(events), Opening({}, MaxBatch(env.tun, None)))
  }

  /** The metrics of a scenario's log. */
  ghost function ScenarioMetrics(env: Env, events: seq<Event>): Metrics {
    MetricsOf(RowsOfDeliveries(ScenarioRun(env, events).deliveries))
  }

  /** Some driven event alerts on a revoked mandate. */
  predicate TouchesRevokedMandate(run: Run) {
    exists d :: d in run.deliveries && d.Fresh? && AlertsOnRevokedMandate(d.task)
  }

  /** The figures of a scenario are those of its own run. */
  ghost predicate ReportsOn(result: SandboxResult, env: Env, events: seq<Event>) {
    var run := ScenarioRun(env, events);
    var rows := RowsOfDeliveries(run.deliveries);
    && result.metrics == ScenarioMetrics(env, events)
    && result.touchCount == |Filter(rows, ScenarioTouch)|
    && result.violations.fraud == 0 && result.violations.dnc == 0
    && result.violations.quietHours == |Filter(rows, QuietHit)|
    && (env.clock.now != 0 ==> result.violations.quietHours == 0)
    && result.violations.mandateRevoked == |Filter(rows, MandateHit)|
    && (result.violations.mandateRevoked > 0 <==> TouchesRevokedMandate(run))
  }

  /** A scenario reports on exactly the run its tunables make of the batch, finds
      no locked violation unless that run alerts on a revoked mandate, and puts the
      default tunables back. */
  method RunScenario(config: PolicyConfig, events: seq<Event>, clock: Clock, draw: Draw, apply: Tunables -> Tunables,
                     crypto: Crypto, existing: seq<Entry>) returns (result: SandboxResult)
    modifies config
    ensures config.tunables == DEFAULT_TUNABLES
    ensures result.tunables == apply(old(config.tunables))
    ensures ReportsOn(result, Env(result.tunables, clock, draw), events)
  {
    hide Process, RowsOfDeliveries, AppendedAll, MetricsOf, TerminalOf, Filter, PrepareAll;
    var tunables := config.SetTunableField(apply);
    var stored := new AuditStore(crypto, existing);
    stored.Clear();
    var env := Env(tunables, clock, draw);
    var batch := RunBatch(events, stored, env, None);
    var entries := stored.All();
    ghost var rows := RunRows(MachineOf(env), PrepareAll(events), Opening({}, MaxBatch(env.tun, None)));
    AppendedAllRows(crypto, [], rows);
    assert RowsOf(entries) == RowsOf([]) + rows == rows;
    var metrics, exceptions := ComputeMetrics(entries);
    var tunablesNow := config.tunables;
    var restored := config.ResetTunables();
    var touchCount := CountTouches(entries);
    var violations := CountLockedViolations(entries);
    ScenarioViolations(env, events, rows);
    result := SandboxResult(tunablesNow, metrics, touchCount, violations);
  }

  method CountTouches(entries: seq<Entry>) returns (n: nat)
    ensures n == |Filter(RowsOf(entries), ScenarioTouch)|
  {
    n := 0;
    for i := 0 to |entries|
      invariant n == |Filter(RowsOf(entries[..i]), ScenarioTouch)|
    {
      OneMoreHit(entries, i, ScenarioTouch);
      if ScenarioTouch(entries[i].row) {
        n := n + 1;
      }
    }
    assert entries[..|entries|] == entries;
  }

  lemma ScenarioViolations(env: Env, events: seq<Event>, rows: seq<Row>)
    requires rows == RowsOfDeliveries(ScenarioRun(env, events).deliveries)
    ensures |Filter(rows, FraudHit)| == 0
    ensures env.clock.now != 0 ==> |Filter(rows, QuietHit)| == 0
    ensures |Filter(rows, MandateHit)| > 0 <==> TouchesRevokedMandate(ScenarioRun(env, events))
  {
    hide Process, RowsOfDeliveries, MachineOf, WellClassified, AlertsOnRevokedMandate, Prepare;
    var tasks, b := PrepareAll(events), Opening({}, MaxBatch(env.tun, None));
    forall t | t in tasks ensures WellClassified(t) {
      var i :| 0 <= i < |tasks| && tasks[i] == t;
      ClassifierRange(events[i]);
    }
    LockedRulesNeverBudge(env, tasks, b);
    MandateHitsComeFromAlerts(env, tasks, b);
    FilterNone(rows, FraudHit);
    if env.clock.now != 0 {
      FilterNone(rows, QuietHit);
    }
    var hits := Filter(rows, MandateHit);
    if hits != [] {
      assert hits[0] in rows && MandateHit(hits[0]);
    }
    assert forall r :: r in rows && MandateHit(r) ==> r in hits;
  }

  // ---------- the sweep ----------

  function Aggressive(t: Tunables): Tunables {
    t.(maxRetryAttempts := 5, maxTouchesPerCustomer := 5, checkoutReminderCap := 3, maxVoiceCalls := 3,
       mandateWindowDays := 5)
  }

  function Conservative(t: Tunables): Tunables {
    t.(maxRetryAttempts := 1, maxTouchesPerCustomer := 1, checkoutReminderCap := 1, maxVoiceCalls := 1,
       mandateWindowDays := 1)
  }

  function HighIncentive(t: Tunables): Tunables {
    t.(cartIncentiveThreshold := 20000, ptpSupervisorThreshold := 1000000, receivableTier2Days := 90)
  }

  /** 2026-09-01 14:30 UTC, the sandbox's time when none is given. */
  const SANDBOX_NOW_MS := 1788273000000

  function ViolationSum(v: LockedViolations): nat { v.fraud + v.mandateRevoked + v.dnc + v.quietHours }

  lemma ViolationsAdd(result: SandboxResult, env: Env, events: seq<Event>)
    requires env.clock.now != 0 && ReportsOn(result, env, events)
    ensures ViolationSum(result.violations) != 0 <==> TouchesRevokedMandate(ScenarioRun(env, events))
  {
    hide ScenarioRun, ScenarioMetrics, TouchesRevokedMandate, RowsOfDeliveries, Filter;
  }

  lemma BaselineShown(result: SandboxResult, env: Env, events: seq<Event>)
    requires ReportsOn(result, env, events)
    ensures result.metrics == ScenarioMetrics(env, events)
  {
  }

  datatype SandboxReport = SandboxReport(baseline: Metrics, scenarios: seq<SandboxResult>, lockedInvariant: bool)

  /** The report shows the metrics of each scenario's own run, and claims that the
      locked rules never budge exactly when no scenario of the sweep alerts on a
      revoked mandate. */
  method RunSandbox(config: PolicyConfig, events: seq<Event>, clock: Clock, draw: Draw, crypto: Crypto)
    returns (report: SandboxReport)
    modifies config
    ensures config.tunables == Tunables(3, 3, 2, 2, 50000, 2000000, 3, 60)
    ensures var sweep := [Tunables(5, 5, 3, 3, 50000, 2000000, 5, 60), Tunables(1, 1, 1, 1, 50000, 2000000, 1, 60),
                          Tunables(3, 3, 2, 2, 20000, 1000000, 3, 90)];
            var at := if clock.now == 0 then clock.(now := 1788273000000) else clock;
            && report.baseline == ScenarioMetrics(Env(old(config.tunables), at, draw), events)
            && |report.scenarios| == |sweep|
            && (forall i :: 0 <= i < |sweep| ==>
                  report.scenarios[i].tunables == sweep[i]
                  && ReportsOn(report.scenarios[i], Env(sweep[i], at, draw), events))
            && (report.lockedInvariant <==>
                  forall i :: 0 <= i < |sweep| ==> !TouchesRevokedMandate(ScenarioRun(Env(sweep[i], at, draw), events)))
  {
    hide ScenarioRun, ScenarioMetrics, TouchesRevokedMandate, ReportsOn, ViolationSum;
    var at := clock;
    if clock.now == 0 {
      at := clock.(now := SANDBOX_NOW_MS);
    }
    var baseline := RunScenario(config, events, at, draw, t => t, crypto, []);
    var applies := [Aggressive, Conservative, HighIncentive];
    var results: seq<SandboxResult> := [];
    for i := 0 to |applies|
      invariant config.tunables == DEFAULT_TUNABLES && |results| == i
      invariant forall j :: 0 <= j < i ==> results[j].tunables == applies[j](DEFAULT_TUNABLES)
      invariant forall j :: 0 <= j < i ==> ReportsOn(results[j], Env(results[j].tunables, at, draw), events)
      invariant forall j :: 0 <= j < i ==>
                  (ViolationSum(results[j].violations) != 0
                   <==> TouchesRevokedMandate(ScenarioRun(Env(results[j].tunables, at, draw), events)))
    {
      var result := RunScenario(config, events, at, draw, applies[i], crypto, []);
      ViolationsAdd(result, Env(result.tunables, at, draw), events);
      results := results + [result];
    }
    var lockedInvariant := true;
    for i := 0 to |results|
      invariant lockedInvariant <==> forall j :: 0 <= j < i ==> ViolationSum(results[j].violations) == 0
    {
      if ViolationSum(results[i].violations) != 0 {
        lockedInvariant := false;
      }
    }
    assert applies[0](DEFAULT_TUNABLES) == Aggressive(DEFAULT_TUNABLES)
           && applies[1](DEFAULT_TUNABLES) == Conservative(DEFAULT_TUNABLES)
        && applies[2](DEFAULT_TUNABLES) == HighIncentive(DEFAULT_TUNABLES);
    BaselineShown(baseline, Env(baseline.tunables, at, draw), events);
    report := SandboxReport(baseline.metrics, results, lockedInvariant);
  }
}
