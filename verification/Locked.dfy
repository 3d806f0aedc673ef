/** The locked safety rules and the auditor that looks for their violations
    (go/rz/sandbox.go:30-98). */
module Locked {
  import opened Types
  import opened Classify
  import opened Rules
  import opened Hours
  import opened Engines
  import opened Loop
  import opened Runner
  import opened Policy

  datatype LockedViolations = LockedViolations(fraud: nat, mandateRevoked: nat, dnc: nat, quietHours: nat)

  /** The auditor's safe states are the running-terminal ones. */
  predicate FraudHit(r: Row) { r.reason.FraudFlagged? && !RunningTerminal(r.state) }

  predicate MandateHit(r: Row) { r.reason.MandateRevoked? && !RunningTerminal(r.state) }

  predicate VoiceContact(r: Row) { r.channel.Voice? && r.state.Contacting? }

  predicate QuietHit(r: Row) { VoiceContact(r) && IsQuietStamp(r.timestamp) }

  function Hits(log: seq<Entry>, hit: Row -> bool): nat { |Filter(RowsOf(log), hit)| }

  /** Counts the hits of each kind; the do-not-call counter is never raised. */
  method CountLockedViolations(entries: seq<Entry>) returns (v: LockedViolations)
    ensures v == LockedViolations(Hits(entries, FraudHit), Hits(entries, MandateHit), 0, Hits(entries, QuietHit))
  {
    hide Filter;
    v := LockedViolations(0, 0, 0, 0);
    HitsOfNothing();
    for i := 0 to |entries|
      invariant v.dnc == 0
      invariant v.fraud == Hits(entries[..i], FraudHit)
      invariant v.mandateRevoked == Hits(entries[..i], MandateHit)
      invariant v.quietHours == Hits(entries[..i], QuietHit)
    {
      var e := entries[i].row;
      OneMoreHit(entries, i, FraudHit);
      OneMoreHit(entries, i, MandateHit);
      OneMoreHit(entries, i, QuietHit);
      if e.reason.FraudFlagged? && !RunningTerminal(e.state) {
        v := v.(fraud := v.fraud + 1);
      }
      if e.reason.MandateRevoked? && !RunningTerminal(e.state) {
        v := v.(mandateRevoked := v.mandateRevoked + 1);
      }
      if e.channel.Voice? && e.state.Contacting? {
        if IsQuietStamp(e.timestamp) {
          v := v.(quietHours := v.quietHours + 1);
        }
      }
    }
    assert entries[..|entries|] == entries;
  }

  lemma HitsOfNothing()
    ensures Hits([], FraudHit) == Hits([], MandateHit) == Hits([], QuietHit) == 0
  {
  }

  lemma OneMoreHit(entries: seq<Entry>, i: nat, hit: Row -> bool)
    requires i < |entries|
    ensures Hits(entries[..i + 1], hit) == Hits(entries[..i], hit) + (if hit(entries[i].row) then 1 else 0)
  {
    assert RowsOf(entries[..i + 1]) == RowsOf(entries[..i]) + [entries[i].row];
    FilterConcat(RowsOf(entries[..i]), [entries[i].row], hit);
    assert Filter([entries[i].row], hit) == if hit(entries[i].row) then [entries[i].row] else [];
  }

  // ---------- what the engine can write ----------

  /** A revoked mandate that reached the degradation engine with a rolling success
      rate below the alert threshold: the one way a revoked mandate is touched. */
  predicate AlertsOnRevokedMandate(t: Task) {
    t.flow.PaymentDegradation? && t.reason.MandateRevoked? && t.successRate != 0.0 && t.successRate < 0.85
  }

  lemma FraudIsSuppressed(env: Env, t: Task, k: nat, touches: nat)
    requires WellClassified(t) && t.reason.FraudFlagged?
    ensures Decide(env.tun, env.clock, t, k, touches).decision == Suppress
  {
    LockedRulesComeFirst(env.tun, env.clock, t, k, touches);
    hide Decide;
  }

  lemma RevokedIsEscalated(env: Env, t: Task, k: nat, touches: nat)
    requires WellClassified(t) && t.reason.MandateRevoked?
    ensures var d := Decide(env.tun, env.clock, t, k, touches).decision;
            if AlertsOnRevokedMandate(t) then d == Contact else d == Escalate || d == Recover
  {
    if !t.flow.PaymentDegradation? {
      LockedRulesComeFirst(env.tun, env.clock, t, k, touches);
      hide Decide;
    }
  }

  lemma DoNotCallIsAbandoned(p: Tunables, c: Clock, t: Task, k: nat, touches: nat)
    requires t.flow.HinglishVoice? && !t.reason.FraudFlagged? && !t.reason.MandateRevoked?
    requires IsDoNotCall(t.dnc, c.Effective())
    ensures Decide(p, c, t, k, touches) == RuleDecision(RuleVoiceDoNotCall, Abandon)
  {
  }

  lemma QuietIsAbandoned(env: Env, t: Task, k: nat, touches: nat)
    requires WellClassified(t) && t.flow.HinglishVoice? && IsDoNotCall(t.dnc, env.clock.Effective())
    ensures Decide(env.tun, env.clock, t, k, touches).decision == Abandon
  {
    hide Decide, IsDoNotCall;
    DoNotCallIsAbandoned(env.tun, env.clock, t, k, touches);
  }

  /** The rows a well-classified task can write, as the auditor sees them. */
  predicate Audited(now: int, t: Task, r: Row) {
    && !FraudHit(r)
    && (MandateHit(r) ==> AlertsOnRevokedMandate(t))
    && (VoiceContact(r) && now != 0 ==> !IsQuietStamp(now))
    && r.timestamp == now
  }

  lemma ActedRows(env: Env, t: Task, k: nat, d: RuleDecision, r: Row)
    requires d.decision in {Retry, Contact} ==> !t.flow.OtherFlow?
    requires r in StepRows(ActOn(env, t, k, d).step)
    ensures r.timestamp == env.clock.now && r.reason == t.reason
    ensures d.decision !in {Retry, Contact, Hold, NoAction} ==> RunningTerminal(r.state)
    ensures VoiceContact(r) ==> t.flow.HinglishVoice? && d.decision == Contact
  {
  }

  lemma TurnIsAudited(env: Env, t: Task, k: nat, touches: nat, r: Row)
    requires WellClassified(t) && r in StepRows(TakeTurn(env, t, k, touches).step)
    ensures Audited(env.clock.now, t, r)
  {
    hide Decide, ActOn, StepRows;
    var d := Decide(env.tun, env.clock, t, k, touches);
    DecideSparesUnknownFlows(env.tun, env.clock, t, k, touches);
    ActedRows(env, t, k, d, r);
    if t.reason.FraudFlagged? {
      FraudIsSuppressed(env, t, k, touches);
    } else if t.reason.MandateRevoked? {
      RevokedIsEscalated(env, t, k, touches);
    }
    QuietExactlyWhen(env.clock.now);
    if VoiceContact(r) && IsDoNotCall(t.dnc, env.clock.Effective()) {
      QuietIsAbandoned(env, t, k, touches);
    }
  }

  lemma TasksAreAudited(env: Env, t: Task, p: Row -> bool)
    requires WellClassified(t)
    requires forall r :: Audited(env.clock.now, t, r) ==> p(r)
    ensures WritesOnly(MachineOf(env), t, p)
  {
    forall k: nat, touches: nat, r | r in StepRows(MachineOf(env).turn(t, k, touches).step) ensures p(r) {
      TurnIsAudited(env, t, k, touches, r);
    }
  }

  // ---------- locked rules never budge ----------

  /** Whatever the tunables, the batch and the store: the rows a run appends
      hold no fraud violation, and no quiet-hours violation when the batch time is set. */
  lemma LockedRulesNeverBudge(env: Env, tasks: seq<Task>, b: Book)
    requires forall t :: t in tasks ==> WellClassified(t)
    ensures forall r :: r in RunRows(MachineOf(env), tasks, b) ==>
              !FraudHit(r) && (env.clock.now != 0 ==> !QuietHit(r))
  {
    hide MachineOf, WellClassified, FraudHit, VoiceContact, IsQuietStamp, MandateHit;
    var p := (r: Row) => !FraudHit(r) && (env.clock.now != 0 ==> !QuietHit(r));
    forall t | t in tasks ensures WritesOnly(MachineOf(env), t, p) && p(DuplicateRow(MachineOf(env).now, t)) {
      TasksAreAudited(env, t, p);
      MarkersAreSafe(env, t);
    }
    RunWritesOnly(MachineOf(env), tasks, b, p);
  }

  lemma MarkersAreSafe(env: Env, t: Task)
    ensures var r := DuplicateRow(MachineOf(env).now, t);
            !FraudHit(r) && !MandateHit(r) && !QuietHit(r) && !VoiceContact(r)
  {
  }

  /** With the batch time unset every row is stamped 05:30 IST, a quiet hour: then
      the auditor reports every voice contact, whenever it was really made. */
  lemma UnsetTimeFlagsEveryVoiceContact(env: Env, tasks: seq<Task>, b: Book, r: Row)
    requires forall t :: t in tasks ==> WellClassified(t)
    requires env.clock.now == 0 && r in RunRows(MachineOf(env), tasks, b)
    ensures QuietHit(r) <==> VoiceContact(r)
  {
    hide MachineOf, WellClassified, RunRows;
    var p := (q: Row) => q.timestamp == 0;
    forall t | t in tasks ensures WritesOnly(MachineOf(env), t, p) && p(DuplicateRow(MachineOf(env).now, t)) {
      TasksAreAudited(env, t, p);
      assert MachineOf(env).now == env.clock.now by { MachineTime(env); }
    }
    RunWritesOnly(MachineOf(env), tasks, b, p);
    assert TimeOfDay(0) == 19800000;
    QuietExactlyWhen(0);
  }

  /** A revoked mandate is touched exactly when the batch drives a payment
      degradation event that alerts on one. */
  lemma MandateHitsComeFromAlerts(env: Env, tasks: seq<Task>, b: Book)
    requires forall t :: t in tasks ==> WellClassified(t)
    ensures (exists r :: r in RunRows(MachineOf(env), tasks, b) && MandateHit(r)) <==>
            (exists d ::
               d in Process(MachineOf(env), tasks, b).deliveries && d.Fresh? && AlertsOnRevokedMandate(d.task))
  {
    hide RunFrom, MachineOf, Process, WellClassified, MandateHit, AlertsOnRevokedMandate;
    var m := MachineOf(env);
    var ds := Process(m, tasks, b).deliveries;
    DeliveriesAre(m, tasks, b);
    forall d | d in ds
      ensures (exists r :: r in DeliveryRows(d) && MandateHit(r)) <==> d.Fresh? && AlertsOnRevokedMandate(d.task)
    {
      var i :| 0 <= i < |ds| && ds[i] == d;
      assert IsDelivery(m, tasks[i], d) && d.task in tasks;
      DeliveryHits(env, d);
    }
    HitsAreInDeliveries(ds);
  }

  /** In a batch that stays within its budget this can be read off the batch: some
      event, not claimed before, alerts on a revoked mandate. */
  lemma {:induction false} MandateHitsArePredictable(env: Env, tasks: seq<Task>, b: Book)
    requires forall t :: t in tasks ==> WellClassified(t)
    requires !Process(MachineOf(env), tasks, b).limitHit
    ensures (exists r :: r in RunRows(MachineOf(env), tasks, b) && MandateHit(r)) <==>
            (exists i :: 0 <= i < |tasks| && FirstOf(tasks, i, b.claimed) && AlertsOnRevokedMandate(tasks[i]))
  {
    hide RunFrom, MachineOf, Process, WellClassified, MandateHit, AlertsOnRevokedMandate, FirstOf, RunRows;
    var m := MachineOf(env);
    var ds := Process(m, tasks, b).deliveries;
    MandateHitsComeFromAlerts(env, tasks, b);
    FirstClaimDrives(m, tasks, b);
    DeliveriesAre(m, tasks, b);
    assert forall i :: 0 <= i < |ds| ==> IsDelivery(m, tasks[i], ds[i]);
  }

  /** A payment degradation event with a revoked mandate and a success rate of 50%. */
  function RevokedAlert(): Event {
    Event("m", PaymentDegradation, "c", 100000, "INR", "",
          map["error_code" := Text("MANDATE_REVOKED"), "success_rate" := Number(0.5)])
  }

  lemma RevokedAlertAlerts()
    ensures AlertsOnRevokedMandate(Prepare(RevokedAlert()))
  {
    assert Upper("MANDATE_REVOKED") == "MANDATE_REVOKED";
  }

  /** So a locked rule does budge: a batch of this one event makes the auditor report
      a violation, under any tunables, clock and draw. */
  lemma RevokedMandateIsTouched(env: Env, maxBatch: int)
    requires maxBatch > 0
    ensures exists r ::
              r in RunRows(MachineOf(env), PrepareAll([RevokedAlert()]), Opening({}, maxBatch)) && MandateHit(r)
  {
    hide RunFrom, MachineOf, RevokedAlert, AlertsOnRevokedMandate, MandateHit, Prepare;
    var m, tasks, b := MachineOf(env), PrepareAll([RevokedAlert()]), Opening({}, maxBatch);
    RevokedAlertAlerts();
    RunRowsUnfold(m, tasks, b);
    AlertIsAHit(env, tasks[0], 0, maxBatch);
  }

  lemma DeliveryHits(env: Env, d: Delivery)
    requires WellClassified(d.task) && IsDelivery(MachineOf(env), d.task, d)
    ensures (exists r :: r in DeliveryRows(d) && MandateHit(r)) <==> d.Fresh? && AlertsOnRevokedMandate(d.task)
  {
    hide WellClassified, RowsOfSteps, AlertsOnRevokedMandate;
    var m, t := MachineOf(env), d.task;
    if d.Duplicate? {
      MarkersAreSafe(env, t);
    } else if AlertsOnRevokedMandate(t) {
      AlertIsAHit(env, t, d.base, d.left);
    } else {
      NoAlertNoHit(env, t, d.base, d.left);
    }
  }

  lemma AlertIsAHit(env: Env, t: Task, base: nat, left: int)
    requires AlertsOnRevokedMandate(t) && left > 0
    ensures exists r :: r in RowsOfSteps(RunFrom(MachineOf(env), t, base, 0, left).steps) && MandateHit(r)
  {
    var steps := RunFrom(MachineOf(env), t, base, 0, left).steps;
    RevokedIsEscalated(env, t, 0, base);
    assert steps[0] == TakeTurn(env, t, 0, base).step;
    hide RunFrom;
    assert MandateHit(steps[0].before);
    assert RowsOfSteps(steps)[0] == steps[0].before;
  }

  lemma NoAlertNoHit(env: Env, t: Task, base: nat, left: int)
    requires WellClassified(t) && !AlertsOnRevokedMandate(t)
    ensures forall r :: r in RowsOfSteps(RunFrom(MachineOf(env), t, base, 0, left).steps) ==> !MandateHit(r)
  {
    hide WellClassified, AlertsOnRevokedMandate, MandateHit, RunFrom, MachineOf;
    var p := (r: Row) => !MandateHit(r);
    TasksAreAudited(env, t, p);
    TraceWritesOnly(MachineOf(env), t, base, 0, left, p);
  }

  lemma {:induction false} HitsAreInDeliveries(ds: seq<Delivery>)
    ensures (exists r :: r in RowsOfDeliveries(ds) && MandateHit(r)) <==>
            (exists d :: d in ds && exists r :: r in DeliveryRows(d) && MandateHit(r))
  {
    hide DeliveryRows, MandateHit;
    if ds != [] {
      HitsAreInDeliveries(ds[1..]);
      assert ds == [ds[0]] + ds[1..];
    }
  }

  // ---------- locked events ignore every tunable ----------

  /** The events a locked rule decides: fraud and revoked mandates of the retry
      flows, fraud at the degradation engine, and voice under do-not-call. */
  predicate LockedTask(c: Clock, t: Task) {
    match t.flow
    case FailedSubscription => t.reason.FraudFlagged? || t.reason.MandateRevoked?
    case MandateRetry => t.reason.FraudFlagged? || t.reason.MandateRevoked?
    case PaymentDegradation => t.reason.FraudFlagged?
    case HinglishVoice => t.reason.FraudFlagged? || t.reason.MandateRevoked? || IsDoNotCall(t.dnc, c.Effective())
    case _ => false
  }

  lemma LockedDecision(c: Clock, t: Task, p: Tunables, q: Tunables, k: nat, touches: nat, touches': nat)
    requires LockedTask(c, t)
    ensures Decide(p, c, t, k, touches) == Decide(q, c, t, k, touches')
    ensures Decide(p, c, t, k, touches).decision in {Suppress, Escalate, Abandon}
  {
    hide Decide, IsDoNotCall;
    if t.reason.FraudFlagged? || t.reason.MandateRevoked? {
      LockedRulesComeFirst(p, c, t, k, touches);
      LockedRulesComeFirst(q, c, t, k, touches');
    } else {
      DoNotCallIsAbandoned(p, c, t, k, touches);
      DoNotCallIsAbandoned(q, c, t, k, touches');
    }
  }

  /** A locked event is driven the same way under any two settings of the tunables,
      any touch history and any draw, in one turn that executes nothing. */
  lemma LockedTasksIgnoreTunables(env: Env, other: Env, t: Task, base: nat, base': nat, left: int, left': int)
    requires env.clock == other.clock && LockedTask(env.clock, t) && left > 0 && left' > 0
    ensures var tr := RunFrom(MachineOf(env), t, base, 0, left);
            && tr == RunFrom(MachineOf(other), t, base', 0, left')
            && |tr.steps| == 1 && !tr.steps[0].executed
            && tr.end.Finished? && tr.end.state in {Suppressed, Escalated, Abandoned}
  {
    hide LockedTask, Decide;
    LockedDecision(env.clock, t, env.tun, other.tun, 0, base, base');
  }
}
