/** The naive baseline (go/rz/naive.go): blind retries without any rule, claim gate
    or touch cap - and what it is good for: it recovers whatever the real policy
    recovers by touching. */
module Naive {
  import opened Types
  import opened Classify
  import opened Rules
  import opened Execution
  import opened Loop
  import opened Store

  const NAIVE_MAX_ATTEMPTS := 10
  const NAIVE_CADENCE_DAYS := 3

  /** A touch the naive policy proposes, with the facts real rules check. */
  datatype NaiveTouch = NaiveTouch(
    eventId: string, flow: Flow, customerId: string, reason: Reason, attempt: nat,
    touchesForCustomer: nat, channel: Channel, now: int, dnc: bool, ptpDate: Option<int>)

  predicate NaiveShouldAct(attempt: int) { attempt < NAIVE_MAX_ATTEMPTS }

  function TouchAt(now: int, attempt: nat): int { now + attempt * NAIVE_CADENCE_DAYS * DAY_MS }

  function ByCustomer(customer: string): NaiveTouch -> bool { (t: NaiveTouch) => t.customerId == customer }

  function MakeTouch(now: int, t: Task, attempt: nat, seen: nat): NaiveTouch {
    NaiveTouch(t.eventId, t.flow, t.customerId, t.reason, attempt, seen,
               if t.flow.HinglishVoice? then Voice else Api, TouchAt(now, attempt), t.dnc, t.ptpDate)
  }

  function NaiveRow(now: int, t: Task, attempt: nat, res: Result): Row {
    Row(t.eventId, TouchAt(now, attempt), t.flow, t.reason, RuleScheduleRetry,
        if res.recovered then Recover else Retry, PolicyEngine, "",
        if res.recovered then Recovered else Retrying,
        Some(attempt), Some(t.amount), t.currency, t.invoiceId, t.customerId, res.channel, "naive_policy", "")
  }

  function ParkedRow(now: int, t: Task, attempt: nat): Row {
    Row(t.eventId, now, t.flow, t.reason, RuleNoOp, Abandon, PolicyEngine, "", Abandoned,
        Some(attempt), Some(t.amount), t.currency, t.invoiceId, t.customerId, NoChannel, "naive_policy", "")
  }

  /** The rows of one event from an attempt on. */
  function EventRows(now: int, draw: Draw, t: Task, k: nat): seq<Row>
    requires !t.flow.OtherFlow? && k <= NAIVE_MAX_ATTEMPTS
    decreases NAIVE_MAX_ATTEMPTS - k, t
  {
    if k == NAIVE_MAX_ATTEMPTS then [ParkedRow(now, t, k)]
    else
      var row := NaiveRow(now, t, k, ExecuteAction(draw, t, k));
      if row.state.Recovered? then [row, row.(rule := RuleRecovered)]
      else [row] + EventRows(now, draw, t, k + 1)
  }

  /** Its touches, when the customer already had `seen` of them. */
  function EventTouches(now: int, draw: Draw, t: Task, k: nat, seen: nat): seq<NaiveTouch>
    requires !t.flow.OtherFlow? && k <= NAIVE_MAX_ATTEMPTS
    decreases NAIVE_MAX_ATTEMPTS - k, t
  {
    if k == NAIVE_MAX_ATTEMPTS then []
    else [MakeTouch(now, t, k, seen)]
         + if ExecuteAction(draw, t, k).recovered then [] else EventTouches(now, draw, t, k + 1, seen + 1)
  }

  predicate KnownFlows(tasks: seq<Task>) {
    forall t :: t in tasks ==> !t.flow.OtherFlow?
  }

  function NaiveRows(now: int, draw: Draw, tasks: seq<Task>): seq<Row>
    requires KnownFlows(tasks)
  {
    if tasks == [] then [] else EventRows(now, draw, tasks[0], 0) + NaiveRows(now, draw, tasks[1..])
  }

  function TouchesBy(touches: seq<NaiveTouch>, customer: string): nat {
    |Filter(touches, ByCustomer(customer))|
  }

  /** All touches of a batch, after the earlier ones. */
  function NaiveTouches(now: int, draw: Draw, tasks: seq<Task>, earlier: seq<NaiveTouch>): seq<NaiveTouch>
    requires KnownFlows(tasks)
    decreases tasks
  {
    if tasks == [] then earlier
    else
      var own := EventTouches(now, draw, tasks[0], 0, TouchesBy(earlier, tasks[0].customerId));
      NaiveTouches(now, draw, tasks[1..], earlier + own)
  }

  // ---------- the run ----------

  lemma TouchesByNext(touches: seq<NaiveTouch>, t: NaiveTouch, customer: string)
    ensures TouchesBy(touches + [t], customer)
            == TouchesBy(touches, customer) + (if t.customerId == customer then 1 else 0)
  {
    FilterConcat(touches, [t], ByCustomer(customer));
    assert Filter([t], ByCustomer(customer)) == if t.customerId == customer then [t] else [];
  }

  method CountTouches(touches: seq<NaiveTouch>, customer: string) returns (n: nat)
    ensures n == TouchesBy(touches, customer)
  {
    n := 0;
    for i := 0 to |touches|
      invariant n == TouchesBy(touches[..i], customer)
    {
      TouchesByNext(touches[..i], touches[i], customer);
      assert touches[..i] + [touches[i]] == touches[..i + 1];
      if touches[i].customerId == customer {
        n := n + 1;
      }
    }
    assert touches[..|touches|] == touches;
  }

  /** What an attempt writes. */
  function AttemptRows(now: int, t: Task, k: nat, res: Result): seq<Row> {
    var row := NaiveRow(now, t, k, res);
    if res.recovered then [row, row.(rule := RuleRecovered)] else [row]
  }

  method Attempt(audit: AuditStore, draw: Draw, nowBase: int, t: Task, attempt: nat) returns (recovered: bool)
    requires audit.Valid() && !t.flow.OtherFlow?
    modifies audit`file
    ensures audit.Valid()
    ensures recovered == ExecuteAction(draw, t, attempt).recovered
    ensures audit.file == AppendedAll(audit.crypto, old(audit.file),
                                      AttemptRows(nowBase, t, attempt, ExecuteAction(draw, t, attempt)))
  {
    hide Appended, AppendedAll, ExecuteAction;
    ghost var before := audit.file;
    var res := ExecuteAction(draw, t, attempt);
    var row := NaiveRow(nowBase, t, attempt, res);
    AppendedOneMore(audit.crypto, before, [], row);
    AppendedNothing(audit.crypto, before);
    audit.Append(row);
    assert [] + [row] == [row];
    if res.recovered {
      var rec := row.(rule := RuleRecovered);
      assert [row] + [rec] == [row, rec];
      AppendedOneMore(audit.crypto, before, [row], rec);
      audit.Append(rec);
    }
    recovered := res.recovered;
  }

  datatype NaiveSpec = NaiveSpec(now: int, draw: Draw, t: Task, seen: nat) {
    /** The rows and touches so far, and what is still to come. */
    ghost predicate Reached(attempt: nat, recovered: bool, rows: seq<Row>, own: seq<NaiveTouch>)
      requires !t.flow.OtherFlow?
    {
      attempt <= NAIVE_MAX_ATTEMPTS &&
      var allRows, allTouches := EventRows(now, draw, t, 0), EventTouches(now, draw, t, 0, seen);
      if recovered then rows == allRows && own == allTouches
      else
        && |own| == attempt
        && allRows == rows + EventRows(now, draw, t, attempt)
        && allTouches == own + EventTouches(now, draw, t, attempt, seen + attempt)
    }
  }

  lemma NaiveStarts(s: NaiveSpec)
    requires !s.t.flow.OtherFlow?
    ensures s.Reached(0, false, [], [])
  {
    hide EventRows, EventTouches;
    assert [] + EventRows(s.now, s.draw, s.t, 0) == EventRows(s.now, s.draw, s.t, 0);
    assert [] + EventTouches(s.now, s.draw, s.t, 0, s.seen) == EventTouches(s.now, s.draw, s.t, 0, s.seen);
  }

  lemma AttemptUnfolds(s: NaiveSpec, k: nat)
    requires !s.t.flow.OtherFlow? && k < NAIVE_MAX_ATTEMPTS
    ensures var res := ExecuteAction(s.draw, s.t, k);
            && EventRows(s.now, s.draw, s.t, k)
               == AttemptRows(s.now, s.t, k, res)
                  + (if res.recovered then [] else EventRows(s.now, s.draw, s.t, k + 1))
            && EventTouches(s.now, s.draw, s.t, k, s.seen + k)
               == [MakeTouch(s.now, s.t, k, s.seen + k)]
                  + (if res.recovered then [] else EventTouches(s.now, s.draw, s.t, k + 1, s.seen + k + 1))
  {
    hide ExecuteAction, MakeTouch, ParkedRow;
    var rows, touch := AttemptRows(s.now, s.t, k, ExecuteAction(s.draw, s.t, k)), MakeTouch(s.now, s.t, k, s.seen + k);
    assert rows + [] == rows && [touch] + [] == [touch];
  }

  lemma NaiveAdvances(s: NaiveSpec, attempt: nat, rows: seq<Row>, own: seq<NaiveTouch>)
    requires !s.t.flow.OtherFlow? && s.Reached(attempt, false, rows, own) && attempt < NAIVE_MAX_ATTEMPTS
    ensures var res := ExecuteAction(s.draw, s.t, attempt);
            s.Reached(attempt + 1, res.recovered, rows + AttemptRows(s.now, s.t, attempt, res),
                      own + [MakeTouch(s.now, s.t, attempt, s.seen + attempt)])
  {
    hide ExecuteAction, MakeTouch, EventRows, EventTouches, AttemptRows;
    AttemptUnfolds(s, attempt);
    var res := ExecuteAction(s.draw, s.t, attempt);
    var step := AttemptRows(s.now, s.t, attempt, res);
    var touch := MakeTouch(s.now, s.t, attempt, s.seen + attempt);
    if !res.recovered {
      var r, u := EventRows(s.now, s.draw, s.t, attempt + 1),
        EventTouches(s.now, s.draw, s.t, attempt + 1, s.seen + attempt + 1);
      assert rows + (step + r) == (rows + step) + r;
      assert own + ([touch] + u) == (own + [touch]) + u;
    } else {
      assert step + [] == step && [touch] + [] == [touch];
    }
  }

  lemma NaiveParks(s: NaiveSpec, rows: seq<Row>, own: seq<NaiveTouch>)
    requires !s.t.flow.OtherFlow? && s.Reached(NAIVE_MAX_ATTEMPTS, false, rows, own)
    ensures s.Reached(NAIVE_MAX_ATTEMPTS, true, rows + [ParkedRow(s.now, s.t, NAIVE_MAX_ATTEMPTS)], own)
  {
    assert own + [] == own;
  }

  /** The inner loop over one event. */
  method DriveNaively(audit: AuditStore, draw: Draw, nowBase: int, t: Task, touches0: seq<NaiveTouch>)
    returns (touches: seq<NaiveTouch>)
    requires audit.Valid() && !t.flow.OtherFlow?
    modifies audit`file
    ensures audit.Valid()
    ensures audit.file == AppendedAll(audit.crypto, old(audit.file), EventRows(nowBase, draw, t, 0))
    ensures touches == touches0 + EventTouches(nowBase, draw, t, 0, TouchesBy(touches0, t.customerId))
  {
    hide Appended, AppendedAll, ExecuteAction, TouchesBy, EventRows, EventTouches, NaiveSpec.Reached, AttemptRows;
    touches := touches0;
    var attempt, recovered := 0, false;
    ghost var before := audit.file;
    ghost var rows: seq<Row>, own: seq<NaiveTouch> := [], [];
    ghost var spec := NaiveSpec(nowBase, draw, t, TouchesBy(touches0, t.customerId));
    AppendedNothing(audit.crypto, before);
    NaiveStarts(spec);
    while NaiveShouldAct(attempt) && !recovered
      invariant audit.Valid() && 0 <= attempt <= NAIVE_MAX_ATTEMPTS
      invariant audit.file == AppendedAll(audit.crypto, before, rows)
      invariant touches == touches0 + own
      invariant !recovered ==> TouchesBy(touches, t.customerId) == spec.seen + attempt
      invariant spec.Reached(attempt, recovered, rows, own)
      decreases NAIVE_MAX_ATTEMPTS - attempt, !recovered
    {
      var touchesForCustomer := CountTouches(touches, t.customerId);
      var touch := MakeTouch(nowBase, t, attempt, touchesForCustomer);
      TouchesByNext(touches, touch, t.customerId);
      touches := touches + [touch];
      NaiveAdvances(spec, attempt, rows, own);
      own := own + [touch];
      recovered := Attempt(audit, draw, nowBase, t, attempt);
      ghost var step := AttemptRows(nowBase, t, attempt, ExecuteAction(draw, t, attempt));
      AppendedAllConcat(audit.crypto, before, rows, step);
      rows := rows + step;
      attempt := attempt + 1;
    }
    if !recovered {
      NaiveParks(spec, rows, own);
      var parked := ParkedRow(nowBase, t, attempt);
      AppendedOneMore(audit.crypto, before, rows, parked);
      audit.Append(parked);
      rows := rows + [parked];
    }
    NaiveEnds(spec, attempt, rows, own);
  }

  lemma NaiveEnds(s: NaiveSpec, attempt: nat, rows: seq<Row>, own: seq<NaiveTouch>)
    requires !s.t.flow.OtherFlow? && s.Reached(attempt, true, rows, own)
    ensures rows == EventRows(s.now, s.draw, s.t, 0) && own == EventTouches(s.now, s.draw, s.t, 0, s.seen)
  {
  }

  /** The naive run appends exactly `NaiveRows` and collects exactly
      `NaiveTouches`; on an unknown flow the executor panics. */
  method RunNaiveBatch(events: seq<Event>, audit: AuditStore, draw: Draw, now: int, wall: int)
    returns (entries: seq<Entry>, touches: seq<NaiveTouch>)
    requires audit.Valid() && KnownFlows(PrepareAll(events))
    modifies audit`file
    ensures audit.Valid()
    ensures var at := if now == 0 then wall else now;
            && entries == audit.file == AppendedAll(audit.crypto, old(audit.file),
                                                    NaiveRows(at, draw, PrepareAll(events)))
            && touches == NaiveTouches(at, draw, PrepareAll(events), [])
  {
    hide AppendedAll, EventRows, EventTouches, Prepare, TouchesBy;
    var nowBase := now;
    if nowBase == 0 {
      nowBase := wall;
    }
    touches := [];
    ghost var tasks, before := PrepareAll(events), audit.file;
    ghost var rows: seq<Row> := [];
    AppendedNothing(audit.crypto, before);
    assert tasks[0..] == tasks && [] + NaiveRows(nowBase, draw, tasks) == NaiveRows(nowBase, draw, tasks);
    for i := 0 to |events|
      invariant audit.Valid()
      invariant audit.file == AppendedAll(audit.crypto, before, rows)
      invariant NaiveRows(nowBase, draw, tasks) == rows + NaiveRows(nowBase, draw, tasks[i..])
      invariant NaiveTouches(nowBase, draw, tasks, []) == NaiveTouches(nowBase, draw, tasks[i..], touches)
    {
      var t := Prepare(events[i]);
      assert t == tasks[i] == tasks[i..][0] && t in tasks && tasks[i..][1..] == tasks[i + 1..];
      ghost var own := EventRows(nowBase, draw, t, 0);
      touches := DriveNaively(audit, draw, nowBase, t, touches);
      AppendedAllConcat(audit.crypto, before, rows, own);
      assert rows + (own + NaiveRows(nowBase, draw, tasks[i + 1..]))
             == (rows + own) + NaiveRows(nowBase, draw, tasks[i + 1..]);
      rows := rows + own;
    }
    assert rows + [] == rows;
    entries := audit.All();
  }
}
