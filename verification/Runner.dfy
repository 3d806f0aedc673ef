/** The machine that the batch loop runs (go/rz/statemachine.go and the body of
    the loop in go/rz/runner.go): decide, write the decision row, execute. */
module Runner {
  import opened Types
  import opened Classify
  import opened Rules
  import opened Engines
  import opened Execution
  import opened Loop

  /** Everything outside the batch that its rows depend on. */
  datatype Env = Env(tun: Tunables, clock: Clock, draw: Draw)

  function StateFor(d: Decision, flow: Flow): AgentState {
    match d
    case Recover => Recovered
    case Escalate => Escalated
    case Suppress => Suppressed
    case Abandon => Abandoned
    case Hold => if flow.PromiseToPay? then WaitingOnPtp else RetryScheduled
    case Contact => ContactScheduled
    case Retry => RetryScheduled
    case NoAction => Detected
  }

  /** The decision row (`StepState`). */
  function DecisionRow(now: int, t: Task, d: RuleDecision, attempt: int): Row {
    Row(t.eventId, now, t.flow, t.reason, d.rule, d.decision, PolicyEngine, "",
        StateFor(d.decision, t.flow), Some(attempt), Some(t.amount), t.currency,
        t.invoiceId, t.customerId, NoChannel, "", "")
  }

  /** The row written after an executed touch. */
  function ActionRow(entry: Row, res: Result): Row {
    entry.(rule := if res.recovered then RuleRecovered else entry.rule,
           decision := if res.recovered then Recover else entry.decision,
           state := if res.recovered then Recovered
                    else if entry.state.ContactScheduled? then Contacting else Retrying,
           channel := res.channel,
           notes := res.note)
  }

  /** The turn that acts on a decision. */
  function ActOn(env: Env, t: Task, attempt: nat, d: RuleDecision): Turn
    requires d.decision in {Retry, Contact} ==> !t.flow.OtherFlow?
  {
    var entry := DecisionRow(env.clock.now, t, d, attempt);
    match d.decision
    case Escalate =>
      Turn(Step(attempt, entry, false, [entry.(rule := RuleNoOp, actor := LlmCopy)]), Some(Escalated))
    case Hold =>
      Turn(Step(attempt, entry, false, [entry.(state := WaitingOnPtp)]), Some(WaitingOnPtp))
    case NoAction =>
      Turn(Step(attempt, entry, false, [entry.(state := Abandoned)]), Some(Abandoned))
    case Suppress => Turn(Step(attempt, entry, false, []), Some(Suppressed))
    case Abandon => Turn(Step(attempt, entry, false, []), Some(Abandoned))
    case Recover => Turn(Step(attempt, entry, false, []), Some(Recovered))
    case _ =>
      // Retry and Contact: execute, log the action, and on success log it once more
      var res := ExecuteAction(env.draw, t, attempt);
      var action := ActionRow(entry, res);
      if res.recovered then Turn(Step(attempt, entry, true, [action, action]), Some(Recovered))
      else Turn(Step(attempt, entry, true, [action]), None)
  }

  function TakeTurn(env: Env, t: Task, attempt: nat, touches: nat): Turn {
    ActOn(env, t, attempt, Decide(env.tun, env.clock, t, attempt, touches))
  }

  function MachineOf(env: Env): Machine {
    Machine(env.clock.now, (t: Task, k: nat, touches: nat) => TakeTurn(env, t, k, touches))
  }

  /** The machine's turn acts on the engines' decision, and never on an unknown
      flow, so the executor's panic is unreachable. */
  lemma TurnActsOnDecision(env: Env, t: Task, k: nat, touches: nat)
    ensures var d := Decide(env.tun, env.clock, t, k, touches);
            && (d.decision in {Retry, Contact} ==> !t.flow.OtherFlow?)
            && MachineOf(env).turn(t, k, touches) == ActOn(env, t, k, d)
  {
    hide ActOn;
  }

  lemma MachineTime(env: Env)
    ensures MachineOf(env).now == env.clock.now
  {
  }

  lemma DecideNeverMarksDuplicates(p: Tunables, c: Clock, t: Task, attempt: int, touches: int)
    ensures Decide(p, c, t, attempt, touches).rule != RuleDuplicateSuppress
  {
  }

  /** The source's machine meets what the loop theory asks of a machine. */
  lemma MachineIsWellFormed(env: Env)
    ensures WellFormed(MachineOf(env))
  {
    forall t: Task, k: nat, touches: nat
      ensures WellFormedTurn(env.clock.now, t, k, MachineOf(env).turn(t, k, touches))
    {
      hide Decide, ActOn;
      var d := Decide(env.tun, env.clock, t, k, touches);
      DecideNeverMarksDuplicates(env.tun, env.clock, t, k, touches);
      DecideSparesUnknownFlows(env.tun, env.clock, t, k, touches);
      ActOnIsWellFormed(env, t, k, d);
    }
  }

  lemma DecideSparesUnknownFlows(p: Tunables, c: Clock, t: Task, attempt: int, touches: int)
    ensures Decide(p, c, t, attempt, touches).decision in {Retry, Contact} ==> !t.flow.OtherFlow?
  {
  }

  lemma ActOnIsWellFormed(env: Env, t: Task, k: nat, d: RuleDecision)
    requires d.decision in {Retry, Contact} ==> !t.flow.OtherFlow?
    requires d.rule != RuleDuplicateSuppress
    ensures WellFormedTurn(env.clock.now, t, k, ActOn(env, t, k, d))
  {
    hide ActOn, WellFormedTurn;
    if d.decision in {Retry, Contact} {
      TouchingIsWellFormed(env, t, k, d);
    } else {
      ClosingIsWellFormed(env, t, k, d);
    }
  }

  lemma TouchingIsWellFormed(env: Env, t: Task, k: nat, d: RuleDecision)
    requires d.decision in {Retry, Contact} && !t.flow.OtherFlow? && d.rule != RuleDuplicateSuppress
    ensures WellFormedTurn(env.clock.now, t, k, ActOn(env, t, k, d))
  {
    hide ExecuteAction;
    var entry := DecisionRow(env.clock.now, t, d, k);
    assert RowOf(env.clock.now, t, entry) && entry.attempt == Some(k);
    hide DecisionRow;
  }

  lemma ClosingIsWellFormed(env: Env, t: Task, k: nat, d: RuleDecision)
    requires d.decision !in {Retry, Contact} && d.rule != RuleDuplicateSuppress
    ensures WellFormedTurn(env.clock.now, t, k, ActOn(env, t, k, d))
  {
    var entry := DecisionRow(env.clock.now, t, d, k);
    assert RowOf(env.clock.now, t, entry) && entry.attempt == Some(k);
    hide DecisionRow;
  }
}
