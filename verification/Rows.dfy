/** What the rows of a run say: the state, actor and channel of every row that a
    driven event leaves, and which touches succeed (go/rz/statemachine.go:24-97,
    go/rz/runner.go:111-216, go/rz/execution.go:44-221). */
module Rows {
  import opened Types
  import opened Classify
  import opened Engines
  import opened Execution
  import opened Loop
  import opened Runner
  import opened Bounds
  import opened Policy
  import opened Locked
  import opened Settlement
  import Rules
  import Hours
  import Sandbox

  // ---------- what a row should say ----------

  /** The channel of a touch, by flow and attempt. */
  function TouchChannel(flow: Flow, k: nat): Channel {
    match flow
    case HinglishVoice => Voice
    case FailedSubscription => Api
    case MandateRetry => Api
    case PaymentDegradation => Api
    case PromiseToPay => Email
    case CheckoutAbandonment => if k == 0 then Email else Whatsapp
    case B2BReceivables => if k == 0 then Email else if k == 1 then Whatsapp else Sms
    case OtherFlow(_) => NoChannel
  }

  /** The state in which a decision puts its event. */
  function DecidedState(d: Decision, flow: Flow): AgentState {
    match d
    case Retry => RetryScheduled
    case Contact => ContactScheduled
    case Recover => Recovered
    case Escalate => Escalated
    case Suppress => Suppressed
    case Abandon => Abandoned
    case Hold => if flow.PromiseToPay? then WaitingOnPtp else RetryScheduled
    case NoAction => Detected
  }

  /** The draw below which a touch of the event succeeds; a degradation recovers by
      its own signal. */
  function Chance(t: Task): real {
    match t.flow
    case CheckoutAbandonment => 0.4
    case B2BReceivables => 0.35
    case HinglishVoice => 0.3
    case PromiseToPay => 0.5
    case _ =>
      match t.reason
      case BankDeclinedTransient => 0.7
      case MandateBankDown => 0.6
      case InsufficientFunds => 0.5
      case MandateInsufficient => 0.5
      case CardExpired => 0.35
      case Auth3dsAbandoned => 0.3
      case MandateAuthPending => 0.3
      case _ => 0.0
  }

  predicate Converts(draw: Draw, t: Task, k: nat) {
    if t.flow.PaymentDegradation? then t.healed else draw(t.eventId, k) < Chance(t)
  }

  /** A call that nobody answers is noted. */
  function TouchNotes(draw: Draw, t: Task, k: nat): string {
    if t.flow.HinglishVoice? && draw(t.eventId, k) >= 0.5 then "retry once more" else ""
  }

  /** The decision row: no channel, no notes, by the engine, in the decided state. */
  predicate DecisionSays(t: Task, r: Row) {
    && r.actor.PolicyEngine? && r.channel.NoChannel? && r.notes == "" && r.outcome == "" && r.triggeredBy == ""
    && r.state == DecidedState(r.decision, t.flow)
  }

  /** The rows after a decision that does not touch. */
  predicate ClosingSays(before: Row, after: seq<Row>) {
    match before.decision
    case Escalate => after == [before.(rule := RuleNoOp, actor := LlmCopy)]
    case Hold => after == [before.(state := WaitingOnPtp)]
    case NoAction => after == [before.(state := Abandoned)]
    case _ => after == []
  }

  /** The row of a touch: what was decided, or that it recovered; its channel; its note. */
  predicate TouchSays(draw: Draw, t: Task, k: nat, before: Row, r: Row) {
    var recovered := Converts(draw, t, k);
    && r.actor.PolicyEngine? && r.outcome == "" && r.triggeredBy == ""
    && r.channel == TouchChannel(t.flow, k) && r.notes == TouchNotes(draw, t, k)
    && r.rule == (if recovered then RuleRecovered else before.rule)
    && r.decision == (if recovered then Recover else before.decision)
    && r.state == (if recovered then Recovered else if before.decision.Contact? then Contacting else Retrying)
  }

  predicate StepSays(draw: Draw, t: Task, s: Step) {
    && DecisionSays(t, s.before)
    && (s.executed <==> s.before.decision in {Retry, Contact})
    && (!s.executed ==> ClosingSays(s.before, s.after))
    && (s.executed ==>
          && |s.after| == (if Converts(draw, t, s.attempt) then 2 else 1)
          && forall r :: r in s.after ==> TouchSays(draw, t, s.attempt, s.before, r))
  }

  // ---------- every turn says so ----------

  lemma ExecutionIsTable(draw: Draw, t: Task, k: nat)
    requires !t.flow.OtherFlow?
    ensures var res := ExecuteAction(draw, t, k);
            && res.channel == TouchChannel(t.flow, k) && res.note == TouchNotes(draw, t, k)
            && res.recovered == Converts(draw, t, k)
  {
  }

  lemma ActingSays(env: Env, t: Task, k: nat, d: RuleDecision)
    requires d.decision in {Retry, Contact} ==> !t.flow.OtherFlow?
    ensures var turn := ActOn(env, t, k, d);
            && StepSays(env.draw, t, turn.step)
            && (turn.step.executed <==> d.decision in {Retry, Contact})
            && (turn.step.executed ==>
                  if Converts(env.draw, t, k) then turn.next == Some(Recovered) else turn.next == None)
  {
    hide ExecuteAction, TouchChannel, TouchNotes, Converts;
    if d.decision in {Retry, Contact} {
      ExecutionIsTable(env.draw, t, k);
    }
  }

  lemma TurnSays(env: Env, t: Task, k: nat, touches: nat)
    ensures var turn := MachineOf(env).turn(t, k, touches);
            && StepSays(env.draw, t, turn.step)
            && (turn.step.executed ==>
                  if Converts(env.draw, t, k) then turn.next == Some(Recovered) else turn.next == None)
  {
    hide ActOn, Decide, StepSays, Converts, MachineOf;
    TurnActsOnDecision(env, t, k, touches);
    ActingSays(env, t, k, Decide(env.tun, env.clock, t, k, touches));
  }

  /** In every run, every step of every driven event says what it should: decision
      and closing rows carry no channel, the rows of a touch the channel of their flow
      and attempt, and a touch recovers exactly when the draw is below the chance. */
  lemma {:induction false} EveryStepSays(env: Env, tasks: seq<Task>, b: Book, i: nat, j: nat)
    requires i < |tasks| && i < |Process(MachineOf(env), tasks, b).deliveries|
    requires var d := Process(MachineOf(env), tasks, b).deliveries[i]; d.Fresh? && j < |d.trace.steps|
    ensures var d := Process(MachineOf(env), tasks, b).deliveries[i];
            d.task == tasks[i] && d.trace.steps[j].attempt == j && StepSays(env.draw, d.task, d.trace.steps[j])
  {
    hide Process, MachineOf, RunFrom, StepSays;
    var d := Process(MachineOf(env), tasks, b).deliveries[i];
    DeliveriesAre(MachineOf(env), tasks, b);
    assert IsDelivery(MachineOf(env), tasks[i], d);
    StepIsATurn(env, d.task, d.base, d.left, j);
    TurnSays(env, d.task, j, d.base + j);
  }

  /** A duplicate marker says who was suppressed and why, and nothing of a touch. */
  lemma {:induction false} EveryMarkerSays(env: Env, tasks: seq<Task>, b: Book, i: nat)
    requires i < |tasks| && i < |Process(MachineOf(env), tasks, b).deliveries|
    requires Process(MachineOf(env), tasks, b).deliveries[i].Duplicate?
    ensures var t, r := tasks[i], Process(MachineOf(env), tasks, b).deliveries[i].row;
            && r.eventId == t.eventId && r.customerId == t.customerId && r.flow == t.flow && r.reason == t.reason
            && r.amount == Some(t.amount) && r.currency == t.currency && r.invoiceId == t.invoiceId
            && r.timestamp == env.clock.now && r.attempt.None? && r.rule.RuleDuplicateSuppress?
            && r.decision.Suppress? && r.state.Suppressed? && r.actor.PolicyEngine? && r.channel.NoChannel?
            && r.notes == "" && r.outcome == "" && r.triggeredBy == ""
  {
    hide Process, MachineOf, RunFrom;
    DeliveriesAre(MachineOf(env), tasks, b);
    assert IsDelivery(MachineOf(env), tasks[i], Process(MachineOf(env), tasks, b).deliveries[i]);
    MachineTime(env);
  }

  // ---------- voice and the hour ----------

  lemma VoiceTurnsAreAwake(env: Env, t: Task, k: nat, touches: nat, r: Row)
    requires env.clock.now != 0 && r in StepRows(MachineOf(env).turn(t, k, touches).step) && r.channel.Voice?
    ensures r.timestamp == env.clock.now && 32400000 <= (r.timestamp + 19800000) % 86400000 < 75600000
  {
    TurnSays(env, t, k, touches);
    MachineIsWellFormed(env);
    MachineTime(env);
    TurnsAreWellFormed(MachineOf(env), t, k, touches);
    TurnExecutes(env, t, k, touches);
    TouchedExactlyWhen(env.tun, env.clock, t, k, touches);
    Hours.DoNotCallExactlyWhen(t.dnc, env.clock.Effective());
    hide MachineOf, ExecuteAction, Acts, Rules.IsDoNotCall, WellFormed, Converts, TouchNotes;
  }

  /** With the batch time set, no row of any run that went out by voice is stamped
      between 21:00 and 09:00 in India. */
  lemma {:induction false} VoiceRowsAreDaytime(env: Env, tasks: seq<Task>, b: Book)
    requires env.clock.now != 0
    ensures forall r :: r in RunRows(MachineOf(env), tasks, b) && r.channel.Voice? ==>
              32400000 <= (r.timestamp + 19800000) % 86400000 < 75600000
  {
    hide MachineOf, RunRows;
    var p := (r: Row) => r.channel.Voice? ==> 32400000 <= (r.timestamp + 19800000) % 86400000 < 75600000;
    forall t | t in tasks ensures WritesOnly(MachineOf(env), t, p) && p(DuplicateRow(MachineOf(env).now, t)) {
      forall k: nat, touches: nat, r | r in StepRows(MachineOf(env).turn(t, k, touches).step) ensures p(r) {
        if r.channel.Voice? {
          VoiceTurnsAreAwake(env, t, k, touches, r);
        }
      }
    }
    RunWritesOnly(MachineOf(env), tasks, b, p);
  }

  // ---------- voice contacts, counted ----------

  function Contacts(rows: seq<Row>): nat { |Filter(rows, VoiceContact)| }

  /** The calls of a trace that did not recover. */
  function FailedCalls(t: Task, tr: Trace): int {
    if t.flow.HinglishVoice? then Executions(tr.steps) - (if ByTouch(tr) then 1 else 0) else 0
  }

  lemma ContactsInParts(a: seq<Row>, b: seq<Row>)
    ensures Contacts(a + b) == Contacts(a) + Contacts(b) && Contacts([]) == 0
  {
    FilterConcat(a, b, VoiceContact);
  }

  lemma ContactsOfOne(r: Row)
    ensures Contacts([r]) == if r.channel.Voice? && r.state.Contacting? then 1 else 0
  {
    assert Filter([r], VoiceContact) == if VoiceContact(r) then [r] else [];
  }

  lemma TurnContacts(env: Env, t: Task, k: nat, touches: nat)
    ensures var turn := MachineOf(env).turn(t, k, touches);
            Contacts(StepRows(turn.step))
            == if t.flow.HinglishVoice? && turn.step.executed && turn.next.None? then 1 else 0
  {
    var turn := MachineOf(env).turn(t, k, touches);
    TurnSays(env, t, k, touches);
    VoiceOnlyContacts(env, t, k, touches);
    StepContacts(env.draw, t, turn.step);
    hide MachineOf, StepSays, Converts, Contacts;
  }

  /** Voice never retries a charge. */
  lemma VoiceOnlyContacts(env: Env, t: Task, k: nat, touches: nat)
    ensures var step := MachineOf(env).turn(t, k, touches).step;
            t.flow.HinglishVoice? && step.executed ==> step.attempt == k && step.before.decision.Contact?
    ensures MachineOf(env).turn(t, k, touches).step.attempt == k
  {
    TurnShowsItsDecision(env, t, k, touches);
    TurnExecutes(env, t, k, touches);
    MachineIsWellFormed(env);
    TurnsAreWellFormed(MachineOf(env), t, k, touches);
    hide MachineOf, ExecuteAction, Rules.IsDoNotCall, WellFormed;
  }

  lemma StepContacts(draw: Draw, t: Task, s: Step)
    requires StepSays(draw, t, s) && (t.flow.HinglishVoice? && s.executed ==> s.before.decision.Contact?)
    ensures Contacts(StepRows(s))
            == if t.flow.HinglishVoice? && s.executed && !Converts(draw, t, s.attempt) then 1 else 0
  {
    hide Contacts, Converts, TouchNotes;
    ContactsInParts([s.before], s.after);
    ContactsOfOne(s.before);
    ContactsInParts([], []);
    if |s.after| == 1 {
      assert s.after[0] in s.after;
      ContactsOfOne(s.after[0]);
      assert s.after == [s.after[0]];
    } else if |s.after| == 2 {
      assert s.after[0] in s.after && s.after[1] in s.after;
      ContactsOfOne(s.after[0]);
      ContactsOfOne(s.after[1]);
      ContactsInParts([s.after[0]], [s.after[1]]);
      assert s.after == [s.after[0]] + [s.after[1]];
    }
  }

  predicate ContactsAreFailedCalls(t: Task, tr: Trace) { Contacts(RowsOfSteps(tr.steps)) == FailedCalls(t, tr) }

  lemma NoCalls(t: Task, end: End)
    ensures ContactsAreFailedCalls(t, Trace([], end))
  {
    hide Contacts;
    ContactsInParts([], []);
  }

  lemma LastCall(t: Task, s: Step, state: AgentState)
    requires Contacts(StepRows(s)) == 0 && (s.executed ==> state.Recovered?)
    ensures ContactsAreFailedCalls(t, Trace([s], Finished(state)))
  {
    hide Contacts, StepRows;
    assert [s][1..] == [] && RowsOfSteps([s]) == StepRows(s) + [] == StepRows(s);
    assert Executions([s]) == if s.executed then 1 else 0;
    assert ByTouch(Trace([s], Finished(state))) <==> s.executed;
  }

  lemma MoreCalls(t: Task, s: Step, rest: Trace)
    requires s.executed && Contacts(StepRows(s)) == (if t.flow.HinglishVoice? then 1 else 0)
    requires ContactsAreFailedCalls(t, rest) && (rest.steps == [] ==> !rest.end.Finished?)
    ensures ContactsAreFailedCalls(t, Trace([s] + rest.steps, rest.end))
  {
    hide Contacts, StepRows;
    assert ([s] + rest.steps)[1..] == rest.steps;
    ContactsInParts(StepRows(s), RowsOfSteps(rest.steps));
  }

  lemma {:induction false} TraceContacts(env: Env, t: Task, base: nat, k: nat, left: int)
    requires k <= GUARD
    ensures ContactsAreFailedCalls(t, RunFrom(MachineOf(env), t, base, k, left))
    decreases GUARD - k
  {
    hide RunFrom, MachineOf, ContactsAreFailedCalls, Contacts, StepRows, WellFormed, StepSays;
    var m := MachineOf(env);
    TraceUnfolds(m, t, base, k, left);
    if k < GUARD && left > 0 {
      var turn := m.turn(t, k, base + k);
      TurnContacts(env, t, k, base + k);
      TurnSays(env, t, k, base + k);
      MachineIsWellFormed(env);
      TurnsAreWellFormed(m, t, k, base + k);
      if turn.next.None? {
        TraceContacts(env, t, base, k + 1, left - 1);
        TraceUnfolds(m, t, base, k + 1, left - 1);
        MoreCalls(t, turn.step, RunFrom(m, t, base, k + 1, left - 1));
      } else {
        LastCall(t, turn.step, turn.next.value);
      }
    } else {
      NoCalls(t, GuardCut);
      NoCalls(t, BudgetCut);
    }
  }

  function FailedCallsOf(): Delivery -> int { (d: Delivery) => if d.Fresh? then FailedCalls(d.task, d.trace) else 0 }

  /** The voice contacts that the auditor looks at in a run's log are exactly its
      failed calls, one row each. */
  lemma {:induction false} VoiceContactsAreFailedCalls(env: Env, tasks: seq<Task>, b: Book)
    ensures Contacts(RunRows(MachineOf(env), tasks, b))
            == Sum(Process(MachineOf(env), tasks, b).deliveries, FailedCallsOf())
  {
    hide RunFrom, MachineOf, Executions, RowsOfSteps, RunRows, Touched, Contacts, FailedCalls;
    ContactsInParts([], []);
    if tasks != [] {
      var m, t, run := MachineOf(env), tasks[0], Process(MachineOf(env), tasks, b);
      RunRowsUnfold(m, tasks, b);
      if t.eventId in b.claimed {
        VoiceContactsAreFailedCalls(env, tasks[1..], b);
        ContactsOfOne(DuplicateRow(m.now, t));
        ContactsInParts([DuplicateRow(m.now, t)], RunRows(m, tasks[1..], b));
        assert run.deliveries[1..] == Process(m, tasks[1..], b).deliveries;
      } else if b.left > 0 {
        var d := Drive(m, t, b);
        TraceContacts(env, t, d.base, 0, d.left);
        VoiceContactsAreFailedCalls(env, tasks[1..], After(b, d));
        ContactsInParts(RowsOfSteps(d.trace.steps), RunRows(m, tasks[1..], After(b, d)));
        assert run.deliveries[1..] == Process(m, tasks[1..], After(b, d)).deliveries;
      }
    } else {
      RunOfNothing(MachineOf(env), b);
    }
  }

  // ---------- the sandbox's touch count ----------

  function Touchy(rows: seq<Row>): nat { |Filter(rows, Sandbox.ScenarioTouch)| }

  lemma TouchyInParts(a: seq<Row>, b: seq<Row>)
    ensures Touchy(a + b) == Touchy(a) + Touchy(b) && Touchy([]) == 0
  {
    FilterConcat(a, b, Sandbox.ScenarioTouch);
  }

  lemma TouchyOfOne(r: Row)
    ensures Touchy([r]) ==
            if r.actor.PolicyEngine? && r.state in {RetryScheduled, Retrying, ContactScheduled, Contacting, Recovered}
            then 1 else 0
  {
    assert Filter([r], Sandbox.ScenarioTouch) == if Sandbox.ScenarioTouch(r) then [r] else [];
  }

  /** What the sandbox counts of an event: two rows per touch, one more when it ends
      recovered, and the row of a hold that is not a promise. */
  function TouchyOf(t: Task, tr: Trace): int {
    2 * Executions(tr.steps)
    + (if tr.end == Finished(Recovered) || (tr.end == Finished(WaitingOnPtp) && !t.flow.PromiseToPay?) then 1 else 0)
  }

  lemma StepTouchy(draw: Draw, t: Task, s: Step)
    requires StepSays(draw, t, s)
    ensures Touchy(StepRows(s)) ==
            if s.executed then (if Converts(draw, t, s.attempt) then 3 else 2)
            else if s.before.decision.Recover? || (s.before.decision.Hold? && !t.flow.PromiseToPay?) then 1 else 0
  {
    hide Touchy, Converts, TouchNotes;
    TouchyInParts([s.before], s.after);
    TouchyOfOne(s.before);
    TouchyInParts([], []);
    if |s.after| == 1 {
      assert s.after[0] in s.after;
      TouchyOfOne(s.after[0]);
      assert s.after == [s.after[0]];
    } else if |s.after| == 2 {
      assert s.after[0] in s.after && s.after[1] in s.after;
      TouchyOfOne(s.after[0]);
      TouchyOfOne(s.after[1]);
      TouchyInParts([s.after[0]], [s.after[1]]);
      assert s.after == [s.after[0]] + [s.after[1]];
    } else {
      assert s.after == [];
    }
  }

  /** How a turn that does not touch ends. */
  lemma TurnEnds(env: Env, t: Task, k: nat, touches: nat)
    ensures var turn := MachineOf(env).turn(t, k, touches);
            && turn.step.attempt == k
            && (!turn.step.executed ==>
                  && (turn.next == Some(Recovered) <==> turn.step.before.decision.Recover?)
                  && (turn.next == Some(WaitingOnPtp) <==> turn.step.before.decision.Hold?))
  {
    TurnActsOnDecision(env, t, k, touches);
    hide Decide, MachineOf, ExecuteAction;
  }

  predicate TouchyIsCounted(t: Task, tr: Trace) { Touchy(RowsOfSteps(tr.steps)) == TouchyOf(t, tr) }

  lemma NoneTouchy(t: Task, end: End)
    requires !end.Finished?
    ensures TouchyIsCounted(t, Trace([], end))
  {
    hide Touchy;
    TouchyInParts([], []);
  }

  lemma LastTouchy(t: Task, s: Step, state: AgentState)
    requires Touchy(StepRows(s)) == (if s.executed then 2 else 0)
               + (if state.Recovered? || (state.WaitingOnPtp? && !t.flow.PromiseToPay?) then 1 else 0)
    ensures TouchyIsCounted(t, Trace([s], Finished(state)))
  {
    hide Touchy, StepRows;
    assert [s][1..] == [] && RowsOfSteps([s]) == StepRows(s) + [] == StepRows(s);
    assert Executions([s]) == if s.executed then 1 else 0;
  }

  lemma MoreTouchy(t: Task, s: Step, rest: Trace)
    requires s.executed && Touchy(StepRows(s)) == 2 && TouchyIsCounted(t, rest)
    ensures TouchyIsCounted(t, Trace([s] + rest.steps, rest.end))
  {
    hide Touchy, StepRows;
    assert ([s] + rest.steps)[1..] == rest.steps;
    TouchyInParts(StepRows(s), RowsOfSteps(rest.steps));
  }

  lemma {:induction false} TraceTouchy(env: Env, t: Task, base: nat, k: nat, left: int)
    requires k <= GUARD
    ensures TouchyIsCounted(t, RunFrom(MachineOf(env), t, base, k, left))
    decreases GUARD - k
  {
    hide RunFrom, MachineOf, TouchyIsCounted, Touchy, StepRows, WellFormed, StepSays, Converts;
    var m := MachineOf(env);
    TraceUnfolds(m, t, base, k, left);
    if k < GUARD && left > 0 {
      var turn := m.turn(t, k, base + k);
      TurnSays(env, t, k, base + k);
      TurnEnds(env, t, k, base + k);
      StepTouchy(env.draw, t, turn.step);
      MachineIsWellFormed(env);
      TurnsAreWellFormed(m, t, k, base + k);
      if turn.next.None? {
        TraceTouchy(env, t, base, k + 1, left - 1);
        MoreTouchy(t, turn.step, RunFrom(m, t, base, k + 1, left - 1));
      } else {
        LastTouchy(t, turn.step, turn.next.value);
      }
    } else {
      NoneTouchy(t, GuardCut);
      NoneTouchy(t, BudgetCut);
    }
  }

  function TouchyOfDelivery(): Delivery -> int { (d: Delivery) => if d.Fresh? then TouchyOf(d.task, d.trace) else 0 }

  /** The sandbox's touch count of a run is therefore not the number of touches. */
  lemma {:induction false} SandboxCountsRows(env: Env, tasks: seq<Task>, b: Book)
    ensures Touchy(RunRows(MachineOf(env), tasks, b))
            == Sum(Process(MachineOf(env), tasks, b).deliveries, TouchyOfDelivery())
  {
    hide RunFrom, MachineOf, Executions, RowsOfSteps, RunRows, Touched, Touchy, TouchyOf;
    TouchyInParts([], []);
    if tasks != [] {
      var m, t, run := MachineOf(env), tasks[0], Process(MachineOf(env), tasks, b);
      RunRowsUnfold(m, tasks, b);
      if t.eventId in b.claimed {
        SandboxCountsRows(env, tasks[1..], b);
        TouchyOfOne(DuplicateRow(m.now, t));
        TouchyInParts([DuplicateRow(m.now, t)], RunRows(m, tasks[1..], b));
        assert run.deliveries[1..] == Process(m, tasks[1..], b).deliveries;
      } else if b.left > 0 {
        var d := Drive(m, t, b);
        TraceTouchy(env, t, d.base, 0, d.left);
        SandboxCountsRows(env, tasks[1..], After(b, d));
        TouchyInParts(RowsOfSteps(d.trace.steps), RunRows(m, tasks[1..], After(b, d)));
        assert run.deliveries[1..] == Process(m, tasks[1..], After(b, d)).deliveries;
      }
    } else {
      RunOfNothing(MachineOf(env), b);
    }
  }
}
