/** What the naive baseline does and what the auditor makes of it: every touch and row
    it leaves, and the violation counters in closed form (go/rz/naive.go:45-179,
    go/rz/compare.go:29-70). */
module Baseline {
  import opened Types
  import opened Classify
  import opened Rules
  import opened Hours
  import opened Execution
  import opened Loop
  import opened Naive
  import opened Quota
  import opened Rows
  import opened Compliance

  /** How often the naive policy touches an event: up to the first success, at most
      ten times. */
  function Blind(draw: Draw, t: Task): nat { Min(10, FirstSuccess(draw, t, 0) + 1) }

  /** The touch of attempt `k`, three days after the one before it. */
  predicate IsTouchOf(u: NaiveTouch, now: int, t: Task, k: nat) {
    && u.eventId == t.eventId && u.flow == t.flow && u.customerId == t.customerId && u.reason == t.reason
    && u.attempt == k && u.now == now + k * 259200000
    && u.channel == (if t.flow.HinglishVoice? then Voice else Api)
    && u.dnc == t.dnc && u.ptpDate == t.ptpDate
  }

  lemma MadeTouch(now: int, t: Task, k: nat, seen: nat)
    ensures IsTouchOf(MakeTouch(now, t, k, seen), now, t, k) && MakeTouch(now, t, k, seen).touchesForCustomer == seen
  {
  }

  // ---------- the touches of one event ----------

  lemma TouchesUnfold(now: int, draw: Draw, t: Task, k: nat, seen: nat)
    requires !t.flow.OtherFlow? && k <= 10
    ensures var list := EventTouches(now, draw, t, k, seen);
            if k == 10 then list == []
            else if Succeeds(draw, t, k) then list == [MakeTouch(now, t, k, seen)]
            else list == [MakeTouch(now, t, k, seen)] + EventTouches(now, draw, t, k + 1, seen + 1)
  {
    hide MakeTouch, ExecuteAction;
    assert [MakeTouch(now, t, k, seen)] + [] == [MakeTouch(now, t, k, seen)];
  }

  /** One event is touched at attempts 0, 1, 2, ... up to its first success or ten
      times, and each touch carries its facts and the next count of its customer. */
  lemma {:induction false} EventTouchesAre(now: int, draw: Draw, t: Task, k: nat, seen: nat)
    requires !t.flow.OtherFlow? && k <= 10 && k <= FirstSuccess(draw, t, 0)
    ensures var list := EventTouches(now, draw, t, k, seen);
            && |list| == Blind(draw, t) - k
            && forall p :: 0 <= p < |list| ==>
                 IsTouchOf(list[p], now, t, k + p) && list[p].touchesForCustomer == seen + p
    decreases 10 - k
  {
    hide EventTouches, FirstSuccess, Succeeds, MakeTouch, IsTouchOf;
    TouchesUnfold(now, draw, t, k, seen);
    if k < 10 {
      MadeTouch(now, t, k, seen);
      FirstSuccessIs(draw, t, k);
      if !Succeeds(draw, t, k) {
        EventTouchesAre(now, draw, t, k + 1, seen + 1);
        var list, rest := EventTouches(now, draw, t, k, seen), EventTouches(now, draw, t, k + 1, seen + 1);
        forall p | 0 <= p < |list|
          ensures IsTouchOf(list[p], now, t, k + p) && list[p].touchesForCustomer == seen + p
        {
          if p > 0 {
            assert list[p] == rest[p - 1];
          }
        }
      }
    }
  }

  lemma FirstSuccessIs(draw: Draw, t: Task, k: nat)
    requires k <= FirstSuccess(draw, t, 0) && k < GUARD
    ensures Succeeds(draw, t, k) <==> k == FirstSuccess(draw, t, 0)
  {
  }

  /** An attempt succeeds exactly when the draw is below the event's chance - which is
      nothing for a reason that the engine would never retry. */
  lemma SucceedsExactlyWhen(draw: Draw, t: Task, k: nat)
    ensures Succeeds(draw, t, k) <==> !t.flow.OtherFlow? && Converts(draw, t, k)
  {
    if !t.flow.OtherFlow? {
      ExecutionIsTable(draw, t, k);
    }
    hide ExecuteAction, Converts;
  }

  // ---------- the rows of one event ----------

  /** The row of attempt `k`: scheduled by the cadence, retried or recovered. */
  predicate IsRowOf(r: Row, now: int, draw: Draw, t: Task, k: nat) {
    && r.eventId == t.eventId && r.flow == t.flow && r.customerId == t.customerId && r.reason == t.reason
    && r.amount == Some(t.amount) && r.currency == t.currency && r.invoiceId == t.invoiceId
    && r.timestamp == now + k * 259200000 && r.attempt == Some(k)
    && r.rule.RuleScheduleRetry? && r.actor.PolicyEngine? && r.channel == TouchChannel(t.flow, k)
    && r.notes == "naive_policy" && r.outcome == "" && r.triggeredBy == ""
    && r.decision == (if Succeeds(draw, t, k) then Recover else Retry)
    && r.state == (if Succeeds(draw, t, k) then Recovered else Retrying)
  }

  /** The row of an event whose ten attempts all failed. */
  predicate IsParkedRowOf(r: Row, now: int, t: Task) {
    && r.eventId == t.eventId && r.flow == t.flow && r.customerId == t.customerId && r.reason == t.reason
    && r.amount == Some(t.amount) && r.currency == t.currency && r.invoiceId == t.invoiceId
    && r.timestamp == now && r.attempt == Some(10)
    && r.rule.RuleNoOp? && r.decision.Abandon? && r.state.Abandoned? && r.actor.PolicyEngine? && r.channel.NoChannel?
    && r.notes == "naive_policy" && r.outcome == "" && r.triggeredBy == ""
  }

  lemma MadeRow(now: int, draw: Draw, t: Task, k: nat)
    requires !t.flow.OtherFlow?
    ensures IsRowOf(NaiveRow(now, t, k, ExecuteAction(draw, t, k)), now, draw, t, k)
    ensures IsParkedRowOf(ParkedRow(now, t, 10), now, t)
  {
  }

  lemma RowsUnfold(now: int, draw: Draw, t: Task, k: nat)
    requires !t.flow.OtherFlow? && k <= 10
    ensures var rows := EventRows(now, draw, t, k);
            if k == 10 then |rows| == 1 && IsParkedRowOf(rows[0], now, t)
            else
              && rows != [] && IsRowOf(rows[0], now, draw, t, k)
              && if Succeeds(draw, t, k) then rows == [rows[0], rows[0].(rule := RuleRecovered)]
                 else rows == [rows[0]] + EventRows(now, draw, t, k + 1)
  {
    MadeRow(now, draw, t, k);
    hide IsRowOf, ExecuteAction;
  }

  /** One event leaves one row per attempt, and then either the recovery once more or
      the parked row. */
  lemma {:induction false} EventRowsAre(now: int, draw: Draw, t: Task, k: nat)
    requires !t.flow.OtherFlow? && k <= 10 && k <= FirstSuccess(draw, t, 0)
    ensures var rows, n := EventRows(now, draw, t, k), Blind(draw, t) - k;
            && |rows| == n + 1
            && (forall p :: 0 <= p < n ==> IsRowOf(rows[p], now, draw, t, k + p))
            && if FirstSuccess(draw, t, 0) < 10 then rows[n] == rows[n - 1].(rule := RuleRecovered)
               else IsParkedRowOf(rows[n], now, t)
    decreases 10 - k
  {
    hide EventRows, FirstSuccess, Succeeds, IsRowOf, IsParkedRowOf;
    RowsUnfold(now, draw, t, k);
    if k < 10 {
      FirstSuccessIs(draw, t, k);
      if !Succeeds(draw, t, k) {
        EventRowsAre(now, draw, t, k + 1);
        var rows, rest := EventRows(now, draw, t, k), EventRows(now, draw, t, k + 1);
        var n := Blind(draw, t) - k;
        forall p | 0 <= p < n ensures IsRowOf(rows[p], now, draw, t, k + p) {
          if p > 0 {
            assert rows[p] == rest[p - 1];
          }
        }
        assert rows[n] == rest[n - 1];
      }
    }
  }

  // ---------- the touches of a batch ----------

  /** The touches of a batch, and the event and attempt behind touch `p`. */
  function BlindTouches(draw: Draw, tasks: seq<Task>): nat {
    if tasks == [] then 0 else Blind(draw, tasks[0]) + BlindTouches(draw, tasks[1..])
  }

  function Origin(draw: Draw, tasks: seq<Task>, p: nat): (o: (nat, nat))
    requires p < BlindTouches(draw, tasks)
    ensures o.0 < |tasks| && o.1 < Blind(draw, tasks[o.0])
  {
    if p < Blind(draw, tasks[0]) then (0, p)
    else
      var o := Origin(draw, tasks[1..], p - Blind(draw, tasks[0]));
      (o.0 + 1, o.1)
  }

  /** Each touch counts the earlier touches of its customer. */
  predicate Counted(list: seq<NaiveTouch>) {
    forall q :: 0 <= q < |list| ==> list[q].touchesForCustomer == TouchesBy(list[..q], list[q].customerId)
  }

  lemma {:induction false} OwnAreCounted(now: int, t: Task, earlier: seq<NaiveTouch>, own: seq<NaiveTouch>)
    requires Counted(earlier)
    requires forall p :: 0 <= p < |own| ==>
               own[p].customerId == t.customerId
               && own[p].touchesForCustomer == TouchesBy(earlier, t.customerId) + p
    ensures Counted(earlier + own)
    ensures TouchesBy(earlier + own, t.customerId) == TouchesBy(earlier, t.customerId) + |own|
    decreases |own|
  {
    hide TouchesBy;
    if own == [] {
      assert earlier + own == earlier;
    } else {
      var n := |own| - 1;
      OwnAreCounted(now, t, earlier, own[..n]);
      var before := earlier + own[..n];
      assert earlier + own == before + [own[n]];
      TouchesByNext(before, own[n], t.customerId);
      forall q | 0 <= q < |before| + 1
        ensures (before + [own[n]])[q].touchesForCustomer
             == TouchesBy((before + [own[n]])[..q], (before + [own[n]])[q].customerId)
      {
        assert (before + [own[n]])[..q] == if q < |before| then before[..q] else before;
      }
    }
  }

  /** The touches of one more event. */
  lemma OwnTouches(now: int, draw: Draw, t: Task, earlier: seq<NaiveTouch>)
    requires !t.flow.OtherFlow? && Counted(earlier)
    ensures var own := EventTouches(now, draw, t, 0, TouchesBy(earlier, t.customerId));
            && |own| == Blind(draw, t) && Counted(earlier + own)
            && forall p :: 0 <= p < |own| ==> IsTouchOf(own[p], now, t, p)
  {
    hide EventTouches, FirstSuccess, TouchesBy, Counted;
    EventTouchesAre(now, draw, t, 0, TouchesBy(earlier, t.customerId));
    OwnAreCounted(now, t, earlier, EventTouches(now, draw, t, 0, TouchesBy(earlier, t.customerId)));
  }

  /** Every touch of a naive run is some event's touch: the list goes through the events
      in order and through the attempts of each, and counts every customer's touches. */
  lemma {:induction false} BatchTouchesAre(now: int, draw: Draw, tasks: seq<Task>, earlier: seq<NaiveTouch>)
    requires KnownFlows(tasks) && Counted(earlier)
    ensures var list, n := NaiveTouches(now, draw, tasks, earlier), |earlier|;
            && |list| == n + BlindTouches(draw, tasks) && list[..n] == earlier && Counted(list)
            && forall p :: 0 <= p < BlindTouches(draw, tasks) ==>
                 var o := Origin(draw, tasks, p);
                 IsTouchOf(list[n + p], now, tasks[o.0], o.1)
    decreases tasks
  {
    hide EventTouches, FirstSuccess, TouchesBy, Counted, IsTouchOf, Blind;
    var list, n := NaiveTouches(now, draw, tasks, earlier), |earlier|;
    if tasks != [] {
      var t := tasks[0];
      var own := EventTouches(now, draw, t, 0, TouchesBy(earlier, t.customerId));
      OwnTouches(now, draw, t, earlier);
      BatchTouchesAre(now, draw, tasks[1..], earlier + own);
      assert list[..n] == (earlier + own)[..n] == earlier by { assert list[..|earlier + own|][..n] == list[..n]; }
      forall p | 0 <= p < BlindTouches(draw, tasks)
        ensures IsTouchOf(list[n + p], now, tasks[Origin(draw, tasks, p).0], Origin(draw, tasks, p).1)
      {
        var m := Blind(draw, t);
        if p < m {
          assert list[n + p] == list[..|earlier + own|][n + p] == own[p];
        } else {
          assert list[n + p] == list[|earlier + own| + (p - m)];
          assert Origin(draw, tasks, p).0 > 0;
        }
      }
    }
  }

  // ---------- the rows of a batch ----------

  /** Where the rows of event `i` start. */
  function RowsBefore(draw: Draw, tasks: seq<Task>, i: nat): nat
    requires i <= |tasks|
  {
    if i == 0 then 0 else Blind(draw, tasks[0]) + 1 + RowsBefore(draw, tasks[1..], i - 1)
  }

  /** The rows of an event: its attempts, and the recovery once more or the parked row. */
  predicate AreRowsOf(rows: seq<Row>, now: int, draw: Draw, t: Task) {
    var n := Blind(draw, t);
    && |rows| == n + 1
    && (forall k :: 0 <= k < n ==> IsRowOf(rows[k], now, draw, t, k))
    && if FirstSuccess(draw, t, 0) < 10 then rows[n] == rows[n - 1].(rule := RuleRecovered)
       else IsParkedRowOf(rows[n], now, t)
  }

  /** They stand at `at`. */
  predicate ShowsEvent(rows: seq<Row>, at: nat, now: int, draw: Draw, t: Task) {
    var end := at + Blind(draw, t) + 1;
    end <= |rows| && AreRowsOf(rows[at..end], now, draw, t)
  }

  lemma ShownAfter(own: seq<Row>, rest: seq<Row>, at: nat, now: int, draw: Draw, t: Task)
    requires ShowsEvent(rest, at, now, draw, t)
    ensures ShowsEvent(own + rest, |own| + at, now, draw, t)
  {
    hide AreRowsOf, Blind;
    var end := at + Blind(draw, t) + 1;
    assert (own + rest)[|own| + at..|own| + end] == rest[at..end];
  }

  lemma ShownFirst(own: seq<Row>, rest: seq<Row>, now: int, draw: Draw, t: Task)
    requires !t.flow.OtherFlow? && own == EventRows(now, draw, t, 0)
    ensures |own| == Blind(draw, t) + 1 && ShowsEvent(own + rest, 0, now, draw, t)
  {
    hide IsRowOf, IsParkedRowOf, FirstSuccess, EventRows;
    EventRowsAre(now, draw, t, 0);
    assert (own + rest)[0..|own|] == own;
  }

  /** The rows of a batch are those of its events, in order. */
  lemma {:induction false} BatchRowsAre(now: int, draw: Draw, tasks: seq<Task>)
    requires KnownFlows(tasks)
    ensures |NaiveRows(now, draw, tasks)| == RowsBefore(draw, tasks, |tasks|)
    ensures forall i :: 0 <= i < |tasks| ==>
              ShowsEvent(NaiveRows(now, draw, tasks), RowsBefore(draw, tasks, i), now, draw, tasks[i])
    decreases |tasks|
  {
    hide EventRows, ShowsEvent, Blind;
    if tasks != [] {
      var own, rest := EventRows(now, draw, tasks[0], 0), NaiveRows(now, draw, tasks[1..]);
      ShownFirst(own, rest, now, draw, tasks[0]);
      BatchRowsAre(now, draw, tasks[1..]);
      forall i | 1 <= i < |tasks|
        ensures ShowsEvent(own + rest, RowsBefore(draw, tasks, i), now, draw, tasks[i])
      {
        assert tasks[i] == tasks[1..][i - 1];
        ShownAfter(own, rest, RowsBefore(draw, tasks[1..], i - 1), now, draw, tasks[i]);
      }
    }
  }

  // ---------- counting over attempts ----------

  /** How many of the attempts `k`..`n - 1` satisfy `c`. */
  function AttemptsIn(c: nat -> bool, k: nat, n: nat): nat
    decreases n - k
  {
    if k >= n then 0 else (if c(k) then 1 else 0) + AttemptsIn(c, k + 1, n)
  }

  lemma {:induction false} CountByAttempt(list: seq<NaiveTouch>, hit: NaiveTouch -> bool, c: nat -> bool, k: nat)
    requires forall p :: 0 <= p < |list| ==> hit(list[p]) == c(k + p)
    ensures Count(list, hit) == AttemptsIn(c, k, k + |list|)
    decreases |list|
  {
    if list != [] {
      assert hit(list[0]) == c(k + 0);
      forall p | 0 <= p < |list[1..]| ensures hit(list[1..][p]) == c(k + 1 + p) {
        assert list[1..][p] == list[p + 1] && hit(list[p + 1]) == c(k + (p + 1));
      }
      CountByAttempt(list[1..], hit, c, k + 1);
    }
  }

  lemma {:induction false} AttemptsFrom(c: nat -> bool, m: int, k: nat, n: nat)
    requires forall j: nat :: c(j) <==> j >= m
    ensures AttemptsIn(c, k, n) == if n <= k || n <= m then 0 else if m <= k then n - k else n - m
    decreases n - k
  {
    if k < n {
      AttemptsFrom(c, m, k + 1, n);
    }
  }

  lemma {:induction false} AttemptsBelow(c: nat -> bool, m: int, k: nat, n: nat)
    requires forall j: nat :: c(j) <==> j < m
    ensures AttemptsIn(c, k, n) == if n <= k || m <= k then 0 else if n <= m then n - k else m - k
    decreases n - k
  {
    if k < n {
      AttemptsBelow(c, m, k + 1, n);
    }
  }

  lemma {:induction false} AttemptsBut(c: nat -> bool, z: int, k: nat, n: nat)
    requires forall j: nat :: c(j) <==> j != z
    ensures AttemptsIn(c, k, n) == (if n <= k then 0 else n - k) - (if k <= z < n then 1 else 0)
    decreases n - k
  {
    if k < n {
      AttemptsBut(c, z, k + 1, n);
    }
  }

  // ---------- counting over a batch ----------

  function SumOver(tasks: seq<Task>, g: Task -> int): int {
    if tasks == [] then 0 else g(tasks[0]) + SumOver(tasks[1..], g)
  }

  /** The touches of one event of the batch. */
  predicate OwnList(now: int, draw: Draw, t: Task, own: seq<NaiveTouch>) {
    |own| == Blind(draw, t) && forall p :: 0 <= p < |own| ==> IsTouchOf(own[p], now, t, p)
  }

  /** The counter `hit` sees `g` of an event's touches. */
  ghost predicate CountsAs(now: int, draw: Draw, t: Task, hit: NaiveTouch -> bool, g: Task -> int) {
    forall own :: OwnList(now, draw, t, own) ==> Count(own, hit) == g(t)
  }

  lemma {:induction false} BatchCounts(now: int, draw: Draw, tasks: seq<Task>, earlier: seq<NaiveTouch>,
                                       hit: NaiveTouch -> bool, g: Task -> int)
    requires KnownFlows(tasks) && Counted(earlier) && forall t :: t in tasks ==> CountsAs(now, draw, t, hit, g)
    ensures Count(NaiveTouches(now, draw, tasks, earlier), hit) == Count(earlier, hit) + SumOver(tasks, g)
    decreases tasks
  {
    hide EventTouches, TouchesBy, Counted, Blind, Count;
    if tasks != [] {
      var t := tasks[0];
      var own := EventTouches(now, draw, t, 0, TouchesBy(earlier, t.customerId));
      OwnTouches(now, draw, t, earlier);
      assert OwnList(now, draw, t, own);
      CountParts(earlier, own, hit);
      BatchCounts(now, draw, tasks[1..], earlier + own, hit, g);
    }
  }

  // ---------- the audit in closed form ----------

  function If(draw: Draw, c: Task -> bool): Task -> int { (t: Task) => if c(t) then Blind(draw, t) else 0 }

  /** A counter that looks at facts of the event alone sees all of its touches or none. */
  lemma FactCounts(now: int, draw: Draw, t: Task, hit: NaiveTouch -> bool, c: Task -> bool)
    requires forall u, k: nat | IsTouchOf(u, now, t, k) :: hit(u) == c(t)
    ensures CountsAs(now, draw, t, hit, If(draw, c))
  {
    hide IsTouchOf, Blind, Count;
    var attempts := (k: nat) => c(t);
    forall own | OwnList(now, draw, t, own) ensures Count(own, hit) == If(draw, c)(t) {
      forall p | 0 <= p < |own| ensures hit(own[p]) == attempts(0 + p) {
        assert IsTouchOf(own[p], now, t, p);
      }
      CountByAttempt(own, hit, attempts, 0);
      AllOrNone(attempts, c(t), |own|);
    }
  }

  lemma AllOrNone(c: nat -> bool, all: bool, n: nat)
    requires forall j: nat :: c(j) == all
    ensures AttemptsIn(c, 0, n) == if all then n else 0
  {
    if all {
      AttemptsFrom(c, 0, 0, n);
    } else {
      NoAttempts(c, 0, n);
    }
  }

  lemma {:induction false} NoAttempts(c: nat -> bool, k: nat, n: nat)
    requires forall j: nat :: !c(j)
    ensures AttemptsIn(c, k, n) == 0
    decreases n - k
  {
    if k < n {
      NoAttempts(c, k + 1, n);
    }
  }

  predicate FraudTask(t: Task) { t.reason.FraudFlagged? }

  predicate RevokedTask(t: Task) { t.reason.MandateRevoked? }

  /** A voice event flagged do-not-call. */
  predicate SilentTask(t: Task) { t.flow.HinglishVoice? && t.dnc }

  lemma LockedCounts(now: int, draw: Draw, t: Task)
    ensures CountsAs(now, draw, t, FraudRetry, If(draw, FraudTask))
    ensures CountsAs(now, draw, t, RevokedRetry, If(draw, RevokedTask))
    ensures CountsAs(now, draw, t, DncBreach, If(draw, SilentTask))
  {
    hide CountsAs, If, IsQuietHour;
    FactCounts(now, draw, t, FraudRetry, FraudTask);
    FactCounts(now, draw, t, RevokedRetry, RevokedTask);
    FactCounts(now, draw, t, DncBreach, SilentTask);
  }

  /** The touches beyond the retry budget. */
  function BeyondBudget(p: Tunables, draw: Draw): Task -> int {
    (t: Task) =>
      var n, m := Blind(draw, t), p.maxRetryAttempts;
      if n <= m then 0 else if m <= 0 then n else n - m
  }

  lemma BudgetCounts(p: Tunables, now: int, draw: Draw, t: Task)
    ensures CountsAs(now, draw, t, OverRetryBudget(p), BeyondBudget(p, draw))
  {
    hide Blind, Count;
    var attempts := (k: nat) => k >= p.maxRetryAttempts;
    forall own | OwnList(now, draw, t, own) ensures Count(own, OverRetryBudget(p)) == BeyondBudget(p, draw)(t) {
      CountByAttempt(own, OverRetryBudget(p), attempts, 0);
      AttemptsFrom(attempts, p.maxRetryAttempts, 0, |own|);
    }
  }

  /** The touches made, three days apart, before the promised date. */
  function BeforePromise(now: int, draw: Draw): Task -> int {
    (t: Task) =>
      if t.ptpDate.None? || t.ptpDate.value <= now then 0
      else Min(Blind(draw, t), (t.ptpDate.value - now - 1) / 259200000 + 1)
  }

  lemma PromiseSpan(now: int, ptp: int, k: nat)
    requires ptp > now
    ensures ptp > now + k * 259200000 <==> k < (ptp - now - 1) / 259200000 + 1
  {
  }

  lemma PromiseCounts(now: int, draw: Draw, t: Task)
    ensures CountsAs(now, draw, t, DuringPromise, BeforePromise(now, draw))
  {
    hide Blind, Count;
    var attempts := (k: nat) => t.ptpDate.Some? && t.ptpDate.value > now + k * 259200000;
    var m := if t.ptpDate.None? || t.ptpDate.value <= now then 0 else (t.ptpDate.value - now - 1) / 259200000 + 1;
    forall k: nat ensures attempts(k) <==> k < m {
      if t.ptpDate.Some? && t.ptpDate.value > now {
        PromiseSpan(now, t.ptpDate.value, k);
      }
    }
    forall own | OwnList(now, draw, t, own) ensures Count(own, DuringPromise) == BeforePromise(now, draw)(t) {
      forall p | 0 <= p < |own| ensures DuringPromise(own[p]) == attempts(0 + p) {
        assert IsTouchOf(own[p], now, t, p);
      }
      CountByAttempt(own, DuringPromise, attempts, 0);
      AttemptsBelow(attempts, m, 0, |own|);
    }
  }

  /** The calls made in quiet hours: the cadence of three days keeps the time of day,
      so all of them or none - but for a call at instant 0, which the rule exempts. */
  function QuietCalls(now: int, draw: Draw): Task -> int {
    (t: Task) =>
      var n := Blind(draw, t);
      if !t.flow.HinglishVoice? || t.dnc || !Quiet(now) then 0
      else n - (if now <= 0 && now % 259200000 == 0 && -now / 259200000 < n then 1 else 0)
  }

  lemma CadenceKeepsTheHour(now: int, k: nat)
    ensures Quiet(now + k * 259200000) <==> Quiet(now)
  {
    SameTimeOfDay(now, 3 * k);
    hide TimeOfDay;
  }

  /** The attempt that falls on instant 0, if any. */
  function ZeroAttempt(now: int): int { if now <= 0 && now % 259200000 == 0 then -now / 259200000 else -1 }

  lemma ZeroIsHitOnce(now: int, k: nat)
    ensures now + k * 259200000 == 0 <==> k == ZeroAttempt(now)
  {
    var q, r := now / 259200000, now % 259200000;
    assert now == 259200000 * q + r && 0 <= r < 259200000;
    if now + k * 259200000 == 0 {
      assert (q + k) * 259200000 == -r;
    }
  }

  lemma QuietCounts(now: int, draw: Draw, t: Task)
    ensures CountsAs(now, draw, t, QuietHourCall, QuietCalls(now, draw))
  {
    hide Blind, Count, Quiet, IsDoNotCall;
    var calls := t.flow.HinglishVoice? && !t.dnc && Quiet(now);
    var z := ZeroAttempt(now);
    var attempts := (k: nat) => calls && k != z;
    forall own | OwnList(now, draw, t, own) ensures Count(own, QuietHourCall) == QuietCalls(now, draw)(t) {
      forall p | 0 <= p < |own| ensures QuietHourCall(own[p]) == attempts(0 + p) {
        assert IsTouchOf(own[p], now, t, p);
        CadenceKeepsTheHour(now, p);
        ZeroIsHitOnce(now, p);
        DoNotCallExactlyWhen(t.dnc, now + p * 259200000);
      }
      CountByAttempt(own, QuietHourCall, attempts, 0);
      if calls {
        AttemptsBut(attempts, z, 0, |own|);
      } else {
        NoAttempts(attempts, 0, |own|);
      }
    }
  }

  /** The audit of the naive policy, for every batch, time and draw, read off its
      events. */
  lemma NaiveViolationsAre(p: Tunables, now: int, draw: Draw, tasks: seq<Task>)
    requires KnownFlows(tasks)
    ensures var v := CountsOf(p, NaiveTouches(now, draw, tasks, []));
            && v.fraudRetries == SumOver(tasks, If(draw, FraudTask))
            && v.mandateRetries == SumOver(tasks, If(draw, RevokedTask))
            && v.dncBreaches == SumOver(tasks, If(draw, SilentTask))
            && v.quietHourCalls == SumOver(tasks, QuietCalls(now, draw))
            && v.retryBudgetBreaches == SumOver(tasks, BeyondBudget(p, draw))
            && v.ptpSuppressionBreaches == SumOver(tasks, BeforePromise(now, draw))
  {
    hide CountsAs, If, QuietCalls, BeyondBudget, BeforePromise, NaiveTouches, Count, SumOver, Counted;
    NothingYet();
    forall t | t in tasks
      ensures CountsAs(now, draw, t, FraudRetry, If(draw, FraudTask))
      ensures CountsAs(now, draw, t, RevokedRetry, If(draw, RevokedTask))
      ensures CountsAs(now, draw, t, DncBreach, If(draw, SilentTask))
    {
      LockedCounts(now, draw, t);
    }
    forall t | t in tasks
      ensures CountsAs(now, draw, t, QuietHourCall, QuietCalls(now, draw))
      ensures CountsAs(now, draw, t, OverRetryBudget(p), BeyondBudget(p, draw))
      ensures CountsAs(now, draw, t, DuringPromise, BeforePromise(now, draw))
    {
      QuietCounts(now, draw, t);
      BudgetCounts(p, now, draw, t);
      PromiseCounts(now, draw, t);
    }
    BatchCounts(now, draw, tasks, [], FraudRetry, If(draw, FraudTask));
    BatchCounts(now, draw, tasks, [], RevokedRetry, If(draw, RevokedTask));
    BatchCounts(now, draw, tasks, [], DncBreach, If(draw, SilentTask));
    BatchCounts(now, draw, tasks, [], QuietHourCall, QuietCalls(now, draw));
    BatchCounts(now, draw, tasks, [], OverRetryBudget(p), BeyondBudget(p, draw));
    BatchCounts(now, draw, tasks, [], DuringPromise, BeforePromise(now, draw));
  }

  lemma NothingYet()
    ensures Counted([]) && forall hit: NaiveTouch -> bool :: Count([], hit) == 0
  {
  }

  // ---------- the touch cap ----------

  /** Of a customer's touches, those beyond the cap are counted, in any counted list. */
  lemma {:induction false} CapBreachesOf(p: Tunables, list: seq<NaiveTouch>, customer: string)
    requires Counted(list)
    ensures var n, cap := TouchesBy(list, customer), p.maxTouchesPerCustomer;
            Count(Filter(list, ByCustomer(customer)), OverTouchCap(p))
            == if n <= cap then 0 else if cap <= 0 then n else n - cap
    decreases |list|
  {
    hide TouchesBy, Filter;
    if list == [] {
      NoTouchesBy(p, customer);
    } else {
      var n := |list| - 1;
      assert list[..n] + [list[n]] == list;
      CountedPrefix(list, n);
      CapBreachesOf(p, list[..n], customer);
      TouchesByNext(list[..n], list[n], customer);
      FilterConcat(list[..n], [list[n]], ByCustomer(customer));
      OwnTouchOf(list[n], customer);
      if list[n].customerId == customer {
        CountNext(Filter(list[..n], ByCustomer(customer)), list[n], OverTouchCap(p));
      } else {
        assert Filter(list[..n], ByCustomer(customer)) + [] == Filter(list[..n], ByCustomer(customer));
      }
    }
  }

  lemma CountedPrefix(list: seq<NaiveTouch>, n: nat)
    requires Counted(list) && n < |list|
    ensures Counted(list[..n]) && list[n].touchesForCustomer == TouchesBy(list[..n], list[n].customerId)
  {
    hide TouchesBy;
    assert forall q :: 0 <= q < n ==> list[..n][..q] == list[..q];
  }

  lemma NoTouchesBy(p: Tunables, customer: string)
    ensures TouchesBy([], customer) == 0 && Count(Filter([], ByCustomer(customer)), OverTouchCap(p)) == 0
  {
  }

  lemma OwnTouchOf(u: NaiveTouch, customer: string)
    ensures Filter([u], ByCustomer(customer)) == if u.customerId == customer then [u] else []
  {
    assert ByCustomer(customer)(u) == (u.customerId == customer);
  }

  // ---------- a customer who must not be called ----------

  /** A missed call to a customer flagged do-not-call. */
  function SilentCall(): Event {
    Event("t", HinglishVoice, "c", 100000, "INR", "",
          map["call_state" := Text("missed"), "dnc_flag" := Bool(true)])
  }

  lemma SilentCallIs()
    ensures var t := Prepare(SilentCall());
            t.eventId == "t" && t.flow.HinglishVoice? && t.dnc && Blind(SeededDraw(), t) == 8
  {
    hide SeededRandom, ClassifyEvent, RetryWindowOf;
    EarlyDraws();
    LateDraws();
    var t := Prepare(SilentCall());
    forall k: nat | k < 7 ensures !Succeeds(SeededDraw(), t, k) {
      assert SeededRandom("t", k) >= 0.3;
    }
    assert Succeeds(SeededDraw(), t, 7);
    assert FirstSuccess(SeededDraw(), t, 0) == 7;
  }

  /** At noon, with the source's generator, the naive policy calls this customer eight
      times: eight do-not-call breaches, and every touch a violation. */
  lemma NaivePolicyCallsTheSilent()
    ensures var touches := NaiveTouches(1788244200000, SeededDraw(), PrepareAll([SilentCall()]), []);
            var v := CountsOf(DEFAULT_TUNABLES, touches);
            v.dncBreaches == 8 && v.quietHourCalls == 0 && v.total == 8
  {
    hide Prepare, NaiveTouches, CountsOf, Blind, Counted, Origin, QuietCalls;
    var now, draw, t := 1788244200000, SeededDraw(), Prepare(SilentCall());
    var tasks := PrepareAll([SilentCall()]);
    assert tasks == [t] && tasks[1..] == [];
    SilentCallIs();
    NaiveViolationsAre(DEFAULT_TUNABLES, now, draw, tasks);
    NothingYet();
    BatchTouchesAre(now, draw, tasks, []);
    TotalCountsTouches(DEFAULT_TUNABLES, NaiveTouches(now, draw, tasks, []));
    SilentIsNotQuiet(now, draw, t);
    assert SumOver(tasks, If(draw, SilentTask)) == 8 && SumOver(tasks, QuietCalls(now, draw)) == 0;
  }

  lemma SilentIsNotQuiet(now: int, draw: Draw, t: Task)
    requires t.dnc
    ensures QuietCalls(now, draw)(t) == 0
  {
  }
}
