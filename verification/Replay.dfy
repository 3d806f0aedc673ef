/** Redelivered batches: at-most-once for a single handle, and reports that
    replay cannot distort (go/rz/runner.go:50-78, go/rz/metrics.go:57-76,
    go/rz/adapter.go:89-103). */
module Replay {
  import opened Types
  import opened Classify
  import opened Loop
  import opened Runner
  import opened Chain
  import opened Store
  import opened Metrics
  import opened Eligibility

  // ---------- duplicates are invisible to the reports ----------

  function NotDuplicate(): Row -> bool { (r: Row) => !IsDuplicate(r) }

  lemma {:induction false} FilterNext(rows: seq<Row>, keep: Row -> bool)
    requires rows != []
    ensures var n := |rows| - 1;
            Filter(rows, keep) == Filter(rows[..n], keep) + (if keep(rows[n]) then [rows[n]] else [])
  {
    var n := |rows| - 1;
    assert rows == rows[..n] + [rows[n]];
    FilterConcat(rows[..n], [rows[n]], keep);
    assert Filter([rows[n]], keep) == if keep(rows[n]) then [rows[n]] else [];
  }

  lemma SnocFolds(rows: seq<Row>, e: Row)
    ensures TerminalOf(rows + [e]) == NoteTerminal(TerminalOf(rows), e)
    ensures FirstRows(rows + [e]) == NoteFirst(FirstRows(rows), e)
  {
    assert (rows + [e])[..|rows|] == rows;
  }

  lemma MarkersFoldToNothing(r: Row)
    requires IsDuplicate(r)
    ensures forall m :: NoteTerminal(m, r) == m && NoteFirst(m, r) == m
  {
  }

  lemma {:induction false} FoldsIgnoreDuplicates(rows: seq<Row>)
    ensures TerminalOf(Filter(rows, NotDuplicate())) == TerminalOf(rows)
    ensures FirstRows(Filter(rows, NotDuplicate())) == FirstRows(rows)
    decreases |rows|
  {
    hide Filter, TerminalOf, FirstRows, NoteTerminal, NoteFirst;
    if rows == [] {
      FilterAll(rows, NotDuplicate());
    } else {
      var n := |rows| - 1;
      FoldsIgnoreDuplicates(rows[..n]);
      FilterNext(rows, NotDuplicate());
      SnocFolds(rows[..n], rows[n]);
      assert rows[..n] + [rows[n]] == rows;
      if IsDuplicate(rows[n]) {
        MarkersFoldToNothing(rows[n]);
        assert Filter(rows[..n], NotDuplicate()) + [] == Filter(rows[..n], NotDuplicate());
      } else {
        SnocFolds(Filter(rows[..n], NotDuplicate()), rows[n]);
      }
    }
  }

  lemma {:induction false} TouchesIgnoreDuplicates(rows: seq<Row>, f: Flow)
    ensures Filter(Filter(rows, NotDuplicate()), TouchOn(f)) == Filter(rows, TouchOn(f))
  {
    if rows != [] {
      TouchesIgnoreDuplicates(rows[1..], f);
      var front := if NotDuplicate()(rows[0]) then [rows[0]] else [];
      FilterConcat(front, Filter(rows[1..], NotDuplicate()), TouchOn(f));
      assert Filter(front, TouchOn(f)) == if TouchOn(f)(rows[0]) then [rows[0]] else [];
    }
  }

  lemma FlowKeysIgnoreDuplicates(rows: seq<Row>)
    ensures FlowKeys(Filter(rows, NotDuplicate())) == FlowKeys(rows)
  {
  }

  lemma {:induction false} FlowTouchesIgnoreDuplicates(rows: seq<Row>, n: nat)
    requires n <= |FLOW_TYPES|
    ensures TouchesOfFlows(Filter(rows, NotDuplicate()), n) == TouchesOfFlows(rows, n)
  {
    if n > 0 {
      FlowTouchesIgnoreDuplicates(rows, n - 1);
      TouchesIgnoreDuplicates(rows, FLOW_TYPES[n - 1]);
    }
  }

  /** Both reports equal themselves on the log with the duplicate markers removed. */
  lemma ReportsIgnoreDuplicates(rows: seq<Row>)
    ensures MetricsOf(Filter(rows, NotDuplicate())) == MetricsOf(rows)
    ensures EligibilityOf(Filter(rows, NotDuplicate())) == EligibilityOf(rows)
  {
    hide Filter, TerminalOf, FirstRows, FlowKeys, TouchesOfFlows, Total, Ratio, TouchOn, Tallied;
    var clean := Filter(rows, NotDuplicate());
    FoldsIgnoreDuplicates(rows);
    FlowKeysIgnoreDuplicates(rows);
    FlowTouchesIgnoreDuplicates(rows, |FLOW_TYPES|);
    forall f ensures Scanned(clean, f) == Scanned(rows, f) {
      TouchesIgnoreDuplicates(rows, f);
    }
  }

  /** Hence appending duplicate markers to a log changes neither report. */
  lemma MarkersChangeNoReport(rows: seq<Row>, markers: seq<Row>)
    requires forall r :: r in markers ==> IsDuplicate(r)
    ensures MetricsOf(rows + markers) == MetricsOf(rows)
    ensures EligibilityOf(rows + markers) == EligibilityOf(rows)
  {
    hide MetricsOf, EligibilityOf;
    ReportsIgnoreDuplicates(rows);
    ReportsIgnoreDuplicates(rows + markers);
    FilterConcat(rows, markers, NotDuplicate());
    FilterNone(markers, NotDuplicate());
    assert Filter(rows, NotDuplicate()) + [] == Filter(rows, NotDuplicate());
  }

  // ---------- what a run claims and logs ----------

  function IdsOf(tasks: seq<Task>): set<string> { set t | t in tasks :: t.eventId }

  function RowIds(rows: seq<Row>): set<string> { set r | r in rows :: r.eventId }

  lemma {:induction false} DeliveryWritesItsId(m: Machine, t: Task, d: Delivery)
    requires WellFormed(m) && IsDelivery(m, t, d)
    ensures DeliveryRows(d) != [] && forall r :: r in DeliveryRows(d) ==> r.eventId == t.eventId
  {
    if d.Fresh? {
      TraceNonEmpty(m, t, d.base, d.left);
      TraceRows(m, t, d.base, 0, d.left);
    }
  }

  lemma {:induction false} DeliveriesWriteTheirIds(m: Machine, tasks: seq<Task>, ds: seq<Delivery>)
    requires WellFormed(m) && |ds| <= |tasks| && forall i :: 0 <= i < |ds| ==> IsDelivery(m, tasks[i], ds[i])
    ensures RowIds(RowsOfDeliveries(ds)) == IdsOf(tasks[..|ds|])
    decreases ds
  {
    hide DeliveryRows, IsDelivery, WellFormed, RowIds, IdsOf;
    if ds != [] {
      DeliveryWritesItsId(m, tasks[0], ds[0]);
      DeliveriesWriteTheirIds(m, tasks[1..], ds[1..]);
      RowIdsAdd(DeliveryRows(ds[0]), RowsOfDeliveries(ds[1..]), tasks[0].eventId);
      IdsNext(tasks, |ds| - 1);
    } else {
      assert RowIds([]) == {} == IdsOf(tasks[..0]) by { NoIds(tasks); }
    }
  }

  lemma NoIds(tasks: seq<Task>)
    ensures RowIds([]) == {} == IdsOf(tasks[..0])
  {
  }

  lemma RowIdsAdd(rows: seq<Row>, rest: seq<Row>, id: string)
    requires rows != [] && forall r :: r in rows ==> r.eventId == id
    ensures RowIds(rows + rest) == {id} + RowIds(rest)
  {
    assert rows[0] in rows;
  }

  /** A run that delivers `n` of the tasks ends with these claims. */
  predicate ClaimsAfter(tasks: seq<Task>, claimed: set<string>, n: nat, limitHit: bool, now: set<string>) {
    && n <= |tasks|
    && now == claimed + IdsOf(tasks[..if n < |tasks| then n + 1 else n])
    && (n < |tasks| ==> limitHit && tasks[n].eventId !in claimed + IdsOf(tasks[..n]))
    && (!limitHit ==> n == |tasks|)
  }

  lemma ClaimsOneMore(tasks: seq<Task>, claimed: set<string>, n: nat, restHit: bool, limitHit: bool, now: set<string>)
    requires tasks != [] && (restHit ==> limitHit)
    requires ClaimsAfter(tasks[1..], claimed + {tasks[0].eventId}, n, restHit, now)
    ensures ClaimsAfter(tasks, claimed, n + 1, limitHit, now)
  {
    hide IdsOf;
    IdsNext(tasks, n);
    IdsNext(tasks, if n + 1 < |tasks| then n + 1 else n);
  }

  lemma ClaimsNone(tasks: seq<Task>, claimed: set<string>)
    ensures tasks == [] ==> ClaimsAfter(tasks, claimed, 0, false, claimed)
    ensures tasks != [] && tasks[0].eventId !in claimed ==>
              ClaimsAfter(tasks, claimed, 0, true, claimed + {tasks[0].eventId})
  {
  }

  /** A run claims the ids it delivers - and, when it runs out of budget, the id
      of the event it stops at. */
  lemma {:induction false} RunClaims(m: Machine, tasks: seq<Task>, b: Book)
    ensures var run := Process(m, tasks, b);
            ClaimsAfter(tasks, b.claimed, |run.deliveries|, run.limitHit, run.book.claimed)
    decreases tasks
  {
    hide RunFrom, Executions, Touched, ClaimsAfter;
    ClaimsNone(tasks, b.claimed);
    if tasks != [] {
      var t, run := tasks[0], Process(m, tasks, b);
      if t.eventId in b.claimed {
        var rest := Process(m, tasks[1..], b);
        RunClaims(m, tasks[1..], b);
        assert b.claimed + {t.eventId} == b.claimed;
        ClaimsOneMore(tasks, b.claimed, |rest.deliveries|, rest.limitHit, run.limitHit, run.book.claimed);
      } else if b.left > 0 {
        var after := After(b, Drive(m, t, b));
        var rest := Process(m, tasks[1..], after);
        RunClaims(m, tasks[1..], after);
        ClaimsOneMore(tasks, b.claimed, |rest.deliveries|, rest.limitHit, run.limitHit, run.book.claimed);
      }
    }
  }

  lemma IdsNext(tasks: seq<Task>, n: nat)
    requires n < |tasks|
    ensures IdsOf(tasks[..n + 1]) == {tasks[0].eventId} + IdsOf(tasks[1..][..n])
  {
    assert tasks[..n + 1] == [tasks[0]] + tasks[1..][..n];
  }

  /** Every id a run claims is in its log, unless the batch stopped early: then
      exactly the event it stopped at is claimed without a row. */
  lemma {:induction false} ClaimedIdsAreLogged(m: Machine, tasks: seq<Task>, b: Book)
    requires WellFormed(m)
    ensures var run := Process(m, tasks, b);
            var n, logged := |run.deliveries|, RowIds(RowsOfDeliveries(run.deliveries));
            && n <= |tasks|
            && (n == |tasks| ==> run.book.claimed == b.claimed + logged)
            && (n < |tasks| ==> (tasks[n].eventId !in b.claimed + logged
                  && run.book.claimed == b.claimed + logged + {tasks[n].eventId}))
  {
    hide Process, IsDelivery, RowsOfDeliveries, RowIds, WellFormed;
    var run := Process(m, tasks, b);
    DeliveriesAre(m, tasks, b);
    DeliveriesWriteTheirIds(m, tasks, run.deliveries);
    RunClaims(m, tasks, b);
    var n := |run.deliveries|;
    if n < |tasks| {
      assert tasks[..n + 1] == tasks[..n] + [tasks[n]];
    }
  }

  // ---------- replay ----------

  predicate AllSuppressed(m: Machine, tasks: seq<Task>, ds: seq<Delivery>) {
    && |ds| == |tasks|
    && forall i :: 0 <= i < |ds| ==> ds[i] == Duplicate(tasks[i], DuplicateRow(m.now, tasks[i]))
  }

  /** A batch of claimed ids is suppressed delivery by delivery, whatever the
      machine, the touch counters and the budget: nothing is executed. */
  lemma {:induction false} ClaimedBatchIsSuppressed(m: Machine, tasks: seq<Task>, b: Book)
    requires forall t :: t in tasks ==> t.eventId in b.claimed
    ensures var run := Process(m, tasks, b);
            AllSuppressed(m, tasks, run.deliveries) && run.book == b && !run.limitHit
  {
    if tasks != [] {
      ClaimedBatchIsSuppressed(m, tasks[1..], b);
    }
  }

  lemma {:induction false} SuppressedRows(m: Machine, tasks: seq<Task>, ds: seq<Delivery>)
    requires AllSuppressed(m, tasks, ds)
    ensures var rows := RowsOfDeliveries(ds);
            && |rows| == |tasks|
            && (forall i :: 0 <= i < |tasks| ==> rows[i] == DuplicateRow(m.now, tasks[i]))
    ensures Escapes(ds) == []
    decreases tasks
  {
    if tasks != [] {
      SuppressedRows(m, tasks[1..], ds[1..]);
    }
  }

  /** After a run that stayed within its limit, redelivering the same events - in
      any selection and order, under any other tunables, clock, draw and budget,
      on the same handle or after reopening the log - appends exactly one marker
      per delivery, executes nothing, escalates nothing, and leaves metrics and
      eligibility as they were. */
  lemma ReplayChangesNoReport(c: Crypto, log: seq<Entry>, env: Env, tasks: seq<Task>, b: Book,
                              other: Env, again: seq<Task>, horizon: set<string>, maxBatch: int)
    requires !Process(MachineOf(env), tasks, b).limitHit
    requires forall t :: t in again ==> t in tasks
    requires var log1 := AppendedAll(c, log, RunRows(MachineOf(env), tasks, b));
             horizon == Process(MachineOf(env), tasks, b).book.claimed || horizon == LoggedIds(log1)
    ensures var log1 := AppendedAll(c, log, RunRows(MachineOf(env), tasks, b));
            var replay := Process(MachineOf(other), again, Opening(horizon, maxBatch));
            var log2 := AppendedAll(c, log1, RowsOfDeliveries(replay.deliveries));
            && AllSuppressed(MachineOf(other), again, replay.deliveries)
            && !replay.limitHit && replay.book.claimed == horizon && Escapes(replay.deliveries) == []
            && |log2| == |log1| + |again|
            && MetricsOf(RowsOf(log2)) == MetricsOf(RowsOf(log1))
            && EligibilityOf(RowsOf(log2)) == EligibilityOf(RowsOf(log1))
  {
    hide Process, MachineOf, RowsOfDeliveries, AppendedAll, MetricsOf, EligibilityOf, AllSuppressed, WellFormed,
         LoggedIds, Escapes;
    var log1 := AppendedAll(c, log, RunRows(MachineOf(env), tasks, b));
    RunIsClaimedAndLogged(c, log, env, tasks, b);
    ClaimedBatchIsSuppressed(MachineOf(other), again, Opening(horizon, maxBatch));
    var replay := Process(MachineOf(other), again, Opening(horizon, maxBatch));
    SuppressedRows(MachineOf(other), again, replay.deliveries);
    var markers := RowsOfDeliveries(replay.deliveries);
    AppendedAllRows(c, log1, markers);
    MarkersChangeNoReport(RowsOf(log1), markers);
  }

  lemma RunIsClaimedAndLogged(c: Crypto, log: seq<Entry>, env: Env, tasks: seq<Task>, b: Book)
    requires !Process(MachineOf(env), tasks, b).limitHit
    ensures forall t :: t in tasks ==>
              t.eventId in Process(MachineOf(env), tasks, b).book.claimed
              && t.eventId in LoggedIds(AppendedAll(c, log, RunRows(MachineOf(env), tasks, b)))
  {
    hide Process, MachineOf, RowsOfDeliveries, AppendedAll, WellFormed, IsDelivery;
    var m := MachineOf(env);
    var run := Process(m, tasks, b);
    MachineIsWellFormed(env);
    RunClaims(m, tasks, b);
    DeliveriesAre(m, tasks, b);
    DeliveriesWriteTheirIds(m, tasks, run.deliveries);
    assert tasks[..|tasks|] == tasks;
    var rows := RowsOfDeliveries(run.deliveries);
    AppendedAllRows(c, log, rows);
    var out := AppendedAll(c, log, rows);
    forall t | t in tasks ensures t.eventId in LoggedIds(out) {
      assert t.eventId in IdsOf(tasks) && t.eventId in RowIds(rows);
      var r :| r in rows && r.eventId == t.eventId;
      var i :| 0 <= i < |rows| && rows[i] == r;
      assert RowsOf(out)[|log| + i] == r && out[|log| + i].row == r;
    }
  }
}
