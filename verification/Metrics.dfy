/** Metrics and eligibility, folded from the audit log alone (go/rz/metrics.go,
    go/rz/adapter.go:84-128). Amounts are in paise; rates are exact. */
module Metrics {
  import opened Types
  import opened Sorting

  // ---------- sums over maps ----------

  /** The sum of a weight over the values of a map. */
  ghost function Total<K, V>(m: map<K, V>, w: V -> int): int
    decreases |m|
  {
    if m == map[] then 0 else var k :| k in m; w(m[k]) + Total(m - {k}, w)
  }

  /** The order in which a map is summed does not matter. */
  lemma {:induction false} TotalPick<K, V>(m: map<K, V>, k: K, w: V -> int)
    requires k in m
    ensures Total(m, w) == w(m[k]) + Total(m - {k}, w)
    decreases |m|
  {
    var j :| j in m && Total(m, w) == w(m[j]) + Total(m - {j}, w);
    if j != k {
      TotalPick(m - {j}, k, w);
      TotalPick(m - {k}, j, w);
      assert m - {j} - {k} == m - {k} - {j};
    }
  }

  lemma TotalUpdate<K, V>(m: map<K, V>, k: K, v: V, w: V -> int)
    ensures Total(m[k := v], w) == Total(m, w) - (if k in m then w(m[k]) else 0) + w(v)
  {
    TotalPick(m[k := v], k, w);
    assert m[k := v] - {k} == m - {k};
    if k in m {
      TotalPick(m, k, w);
    } else {
      assert m - {k} == m;
    }
  }

  /** Equal or comparable weights have equal or comparable sums. */
  lemma {:induction false} TotalCompare<K, V>(m: map<K, V>, w: V -> int, u: V -> int)
    requires forall k :: k in m ==> w(m[k]) <= u(m[k])
    ensures Total(m, w) <= Total(m, u)
    ensures (forall k :: k in m ==> w(m[k]) == u(m[k])) ==> Total(m, w) == Total(m, u)
    decreases |m|
  {
    if m != map[] {
      var k :| k in m && Total(m, u) == u(m[k]) + Total(m - {k}, u);
      TotalPick(m, k, w);
      TotalCompare(m - {k}, w, u);
    }
  }

  lemma {:induction false} TotalSum<K, V>(m: map<K, V>, w: V -> int, u: V -> int, sum: V -> int)
    requires forall k :: k in m ==> sum(m[k]) == w(m[k]) + u(m[k])
    ensures Total(m, sum) == Total(m, w) + Total(m, u)
    decreases |m|
  {
    if m != map[] {
      var k :| k in m && Total(m, sum) == sum(m[k]) + Total(m - {k}, sum);
      TotalPick(m, k, w);
      TotalPick(m, k, u);
      TotalSum(m - {k}, w, u, sum);
    }
  }

  lemma {:induction false} TotalOnes<K, V>(m: map<K, V>, w: V -> int)
    requires forall k :: k in m ==> w(m[k]) == 1
    ensures Total(m, w) == |m|
    decreases |m|
  {
    if m != map[] {
      var k :| k in m && Total(m, w) == w(m[k]) + Total(m - {k}, w);
      TotalOnes(m - {k}, w);
    }
  }

  lemma {:induction false} TotalMerge<K, V>(a: map<K, V>, b: map<K, V>, w: V -> int)
    requires a.Keys !! b.Keys
    ensures Total(a + b, w) == Total(a, w) + Total(b, w)
    decreases |b|
  {
    if b == map[] {
      assert a + b == a;
    } else {
      var k :| k in b;
      TotalMerge(a, b - {k}, w);
      MergeWithout(a, b, k);
      TotalPick(b, k, w);
      TotalPick(a + b, k, w);
    }
  }

  lemma MergeWithout<K, V>(a: map<K, V>, b: map<K, V>, k: K)
    requires a.Keys !! b.Keys && k in b
    ensures (a + b) - {k} == a + (b - {k}) && (a + b)[k] == b[k]
  {
  }

  // ---------- what the log says about each event ----------

  /** A row that decides how its event ended, for now. */
  predicate Decides(r: Row) { !IsDuplicate(r) && IsTerminalState(r.state) }

  function NoteTerminal(m: map<string, Row>, r: Row): map<string, Row> {
    if Decides(r) then m[r.eventId := r] else m
  }

  /** The last terminal row of every event, duplicate markers skipped. */
  function TerminalOf(rows: seq<Row>): map<string, Row> {
    if rows == [] then map[] else NoteTerminal(TerminalOf(rows[..|rows| - 1]), rows[|rows| - 1])
  }

  function NoteFirst(m: map<string, Row>, r: Row): map<string, Row> {
    if IsDuplicate(r) || r.eventId in m then m else m[r.eventId := r]
  }

  /** The first row of every event, duplicate markers skipped. */
  function FirstRows(rows: seq<Row>): map<string, Row> {
    if rows == [] then map[] else NoteFirst(FirstRows(rows[..|rows| - 1]), rows[|rows| - 1])
  }

  function FlowKeys(rows: seq<Row>): set<Flow> {
    (set f | f in FLOW_TYPES) + (set r | r in rows && !IsDuplicate(r) :: r.flow)
  }

  predicate LastDecision(rows: seq<Row>, id: string, i: nat) {
    && i < |rows| && Decides(rows[i]) && rows[i].eventId == id
    && forall j :: i < j < |rows| && Decides(rows[j]) ==> rows[j].eventId != id
  }

  lemma LastDecisionOfFront(rows: seq<Row>, id: string, i: nat)
    requires rows != [] && !(Decides(rows[|rows| - 1]) && rows[|rows| - 1].eventId == id)
    ensures LastDecision(rows, id, i) <==> LastDecision(rows[..|rows| - 1], id, i)
  {
  }

  /** `TerminalOf` is what its name says: the last deciding row of each event. */
  lemma {:induction false} TerminalIsTheLast(rows: seq<Row>, id: string)
    ensures id in TerminalOf(rows) <==> exists i: nat :: LastDecision(rows, id, i)
    ensures forall i: nat :: LastDecision(rows, id, i) ==> TerminalOf(rows)[id] == rows[i]
    decreases |rows|
  {
    if rows != [] {
      var n := |rows| - 1;
      NoteTerminalAt(TerminalOf(rows[..n]), rows[n], id);
      if Decides(rows[n]) && rows[n].eventId == id {
        assert LastDecision(rows, id, n);
        assert forall i: nat :: LastDecision(rows, id, i) ==> i == n;
      } else {
        TerminalIsTheLast(rows[..n], id);
        forall i: nat { LastDecisionOfFront(rows, id, i); }
        assert forall i: nat :: LastDecision(rows, id, i) <==> LastDecision(rows[..n], id, i);
      }
    }
  }

  lemma NoteTerminalAt(m: map<string, Row>, r: Row, id: string)
    ensures id in NoteTerminal(m, r) <==> (id in m || (Decides(r) && r.eventId == id))
    ensures id in NoteTerminal(m, r) ==> NoteTerminal(m, r)[id] == if Decides(r) && r.eventId == id then r else m[id]
  {
  }

  // ---------- weights ----------

  function AmountOf(r: Row): int { if r.amount.Some? then r.amount.value else 0 }

  function RecoveredAmountOf(r: Row): int { if r.state.Recovered? then AmountOf(r) else 0 }

  function One(r: Row): int { 1 }

  function InState(s: AgentState): Row -> int { (r: Row) => if r.state == s then 1 else 0 }

  function OnFlow(f: Flow, w: Row -> int): Row -> int { (r: Row) => if r.flow == f then w(r) else 0 }

  /** A row counted as a touch: a retry or contact decision, logged before the
      touch and again after a failed one. */
  predicate IsTouch(r: Row) { !IsDuplicate(r) && (r.decision.Retry? || r.decision.Contact?) }

  function TouchOn(f: Flow): Row -> bool { (r: Row) => IsTouch(r) && r.flow == f }

  // ---------- the metrics ----------

  datatype FlowMetrics = FlowMetrics(
    events: int, recoveredCount: int, recoveredAmount: int, escalated: int, suppressed: int, abandoned: int,
    touches: int)

  datatype Metrics = Metrics(
    totalEvents: int, totalAtRisk: int, recoveredCount: int, recoveredAmount: int, recoveryRate: real,
    touchesSent: int, costPerRecovery: real, escalatedCount: int, abandonedCount: int, suppressedCount: int,
    byFlow: map<Flow, FlowMetrics>)

  function Ratio(a: int, b: int): real {
    if b > 0 then a as real / b as real else 0.0
  }

  ghost function Scanned(rows: seq<Row>, f: Flow): FlowMetrics {
    FlowMetrics(Total(FirstRows(rows), OnFlow(f, One)), 0, 0, 0, 0, 0, |Filter(rows, TouchOn(f))|)
  }

  ghost function Tallied(fm: FlowMetrics, terminal: map<string, Row>, f: Flow): FlowMetrics {
    fm.(recoveredCount := fm.recoveredCount + Total(terminal, OnFlow(f, InState(Recovered))),
        recoveredAmount := fm.recoveredAmount + Total(terminal, OnFlow(f, RecoveredAmountOf)),
        escalated := fm.escalated + Total(terminal, OnFlow(f, InState(Escalated))),
        suppressed := fm.suppressed + Total(terminal, OnFlow(f, InState(Suppressed))),
        abandoned := fm.abandoned + Total(terminal, OnFlow(f, InState(Abandoned))))
  }

  /** The touches of the first `n` flows. */
  function TouchesOfFlows(rows: seq<Row>, n: nat): int
    requires n <= |FLOW_TYPES|
  {
    if n == 0 then 0 else TouchesOfFlows(rows, n - 1) + |Filter(rows, TouchOn(FLOW_TYPES[n - 1]))|
  }

  ghost function MetricsOf(rows: seq<Row>): Metrics {
    var t := TerminalOf(rows);
    var recovered, touches := Total(t, InState(Recovered)), TouchesOfFlows(rows, |FLOW_TYPES|);
    Metrics(|t|, Total(t, AmountOf), recovered, Total(t, RecoveredAmountOf),
            Ratio(Total(t, RecoveredAmountOf), Total(t, AmountOf)), touches, Ratio(touches, recovered),
            Total(t, InState(Escalated)), Total(t, InState(Abandoned)), Total(t, InState(Suppressed)),
            map f | f in FlowKeys(rows) :: Tallied(Scanned(rows, f), t, f))
  }

  predicate IsException(r: Row) { r.state.Escalated? || r.state.Abandoned? || r.state.WaitingOnPtp? }

  /** The exception list: each escalated or abandoned event's last terminal row,
      exactly once. */
  ghost predicate ListsExceptions(list: seq<Row>, terminal: map<string, Row>) {
    forall r :: multiset(list)[r] == if IsExceptionOf(r, terminal) then 1 else 0
  }

  predicate IsExceptionOf(r: Row, terminal: map<string, Row>) {
    r.eventId in terminal && terminal[r.eventId] == r && IsException(r)
  }

  // ---------- the first pass ----------

  lemma TouchesNext(rows: seq<Row>, i: nat, f: Flow)
    requires i < |rows|
    ensures |Filter(rows[..i + 1], TouchOn(f))|
            == |Filter(rows[..i], TouchOn(f))| + (if TouchOn(f)(rows[i]) then 1 else 0)
  {
    assert rows[..i + 1] == rows[..i] + [rows[i]];
    FilterConcat(rows[..i], [rows[i]], TouchOn(f));
    assert Filter([rows[i]], TouchOn(f)) == if TouchOn(f)(rows[i]) then [rows[i]] else [];
  }

  lemma FlowKeysNext(rows: seq<Row>, i: nat)
    requires i < |rows|
    ensures FlowKeys(rows[..i + 1]) == FlowKeys(rows[..i]) + (if IsDuplicate(rows[i]) then {} else {rows[i].flow})
  {
    hide IsDuplicate;
    assert rows[..i + 1] == rows[..i] + [rows[i]];
  }

  lemma PrefixNext(rows: seq<Row>, i: nat)
    requires i < |rows|
    ensures TerminalOf(rows[..i + 1]) == NoteTerminal(TerminalOf(rows[..i]), rows[i])
    ensures FirstRows(rows[..i + 1]) == NoteFirst(FirstRows(rows[..i]), rows[i])
    ensures FlowKeys(rows[..i + 1]) == FlowKeys(rows[..i]) + (if IsDuplicate(rows[i]) then {} else {rows[i].flow})
  {
    hide FlowKeys, NoteTerminal, NoteFirst, IsDuplicate;
    assert rows[..i + 1][..i] == rows[..i];
    FlowKeysNext(rows, i);
  }

  const NO_METRICS := FlowMetrics(0, 0, 0, 0, 0, 0, 0)

  function FlowEntry(byFlow: map<Flow, FlowMetrics>, f: Flow): FlowMetrics {
    if f in byFlow then byFlow[f] else NO_METRICS
  }

  /** What the first pass adds to its row's flow. */
  function Bumped(fm: FlowMetrics, e: Row, firstSeen: bool): FlowMetrics {
    fm.(events := fm.events + (if firstSeen then 1 else 0),
        touches := fm.touches + (if e.decision.Retry? || e.decision.Contact? then 1 else 0))
  }

  lemma FirstNext(m: map<string, Row>, e: Row, f: Flow)
    ensures Total(NoteFirst(m, e), OnFlow(f, One))
         == Total(m, OnFlow(f, One)) + (if !IsDuplicate(e) && e.eventId !in m && e.flow == f then 1 else 0)
  {
    if !IsDuplicate(e) && e.eventId !in m {
      TotalUpdate(m, e.eventId, e, OnFlow(f, One));
      assert OnFlow(f, One)(e) == if e.flow == f then One(e) else 0;
    }
  }

  lemma ScannedNext(rows: seq<Row>, i: nat, f: Flow)
    requires i < |rows|
    ensures var before, after, e := Scanned(rows[..i], f), Scanned(rows[..i + 1], f), rows[i];
            after == if IsDuplicate(e) || e.flow != f then before
                     else Bumped(before, e, e.eventId !in FirstRows(rows[..i]))
  {
    hide FirstRows, Filter, TerminalOf, FlowKeys, NoteFirst, NoteTerminal, Total;
    PrefixNext(rows, i);
    TouchesNext(rows, i, f);
    FirstNext(FirstRows(rows[..i]), rows[i], f);
  }

  /** The variables of the first pass describe the first `i` rows. */
  ghost predicate ScannedTo(rows: seq<Row>, i: nat, byFlow: map<Flow, FlowMetrics>, terminal: map<string, Row>,
                            seen: set<string>) {
    && i <= |rows|
    && terminal == TerminalOf(rows[..i])
    && seen == FirstRows(rows[..i]).Keys
    && byFlow.Keys == FlowKeys(rows[..i])
    && forall f :: FlowEntry(byFlow, f) == Scanned(rows[..i], f)
  }

  lemma ScanStarts(rows: seq<Row>)
    ensures ScannedTo(rows, 0, map f | f in FLOW_TYPES :: NO_METRICS, map[], {})
  {
    assert forall f :: Scanned([], f) == NO_METRICS;
  }

  lemma ScanAdvances(rows: seq<Row>, i: nat, byFlow: map<Flow, FlowMetrics>, terminal: map<string, Row>,
                     seen: set<string>)
    requires i < |rows| && ScannedTo(rows, i, byFlow, terminal, seen)
    ensures var e := rows[i];
            if IsDuplicate(e) then ScannedTo(rows, i + 1, byFlow, terminal, seen)
            else ScannedTo(rows, i + 1, byFlow[e.flow := Bumped(FlowEntry(byFlow, e.flow), e, e.eventId !in seen)],
                           if IsTerminalState(e.state) then terminal[e.eventId := e] else terminal, seen + {e.eventId})
  {
    hide FirstRows, TerminalOf, FlowKeys, Scanned, Bumped, Filter, TouchOn;
    PrefixNext(rows, i);
    FirstKeysNext(FirstRows(rows[..i]), rows[i]);
    var e := rows[i];
    var byFlow' := if IsDuplicate(e) then byFlow
      else byFlow[e.flow := Bumped(FlowEntry(byFlow, e.flow), e, e.eventId !in seen)];
    forall f ensures FlowEntry(byFlow', f) == Scanned(rows[..i + 1], f) {
      ScannedNext(rows, i, f);
    }
    hide NoteFirst;
  }

  lemma FirstKeysNext(m: map<string, Row>, e: Row)
    ensures NoteFirst(m, e).Keys == m.Keys + (if IsDuplicate(e) then {} else {e.eventId})
  {
  }

  method ScanLog(log: seq<Entry>)
    returns (byFlow: map<Flow, FlowMetrics>, terminal: map<string, Row>, seen: set<string>)
    ensures ScannedTo(RowsOf(log), |log|, byFlow, terminal, seen)
  {
    hide ScannedTo;
    byFlow := map f | f in FLOW_TYPES :: NO_METRICS;
    terminal, seen := map[], {};
    ScanStarts(RowsOf(log));
    for i := 0 to |log|
      invariant ScannedTo(RowsOf(log), i, byFlow, terminal, seen)
    {
      var e := log[i].row;
      ScanAdvances(RowsOf(log), i, byFlow, terminal, seen);
      if !IsDuplicate(e) {
        var fm := FlowEntry(byFlow, e.flow);
        if e.eventId !in seen {
          fm := fm.(events := fm.events + 1);
        }
        seen := seen + {e.eventId};
        if e.decision.Retry? || e.decision.Contact? {
          fm := fm.(touches := fm.touches + 1);
        }
        if IsTerminalState(e.state) {
          terminal := terminal[e.eventId := e];
        }
        byFlow := byFlow[e.flow := fm];
      }
    }
  }

  // ---------- the second pass, in any order of the events ----------

  /** What the second pass adds to its row's flow. */
  function Credited(fm: FlowMetrics, e: Row): FlowMetrics {
    match e.state
    case Recovered => fm.(recoveredCount := fm.recoveredCount + 1, recoveredAmount := fm.recoveredAmount + AmountOf(e))
    case Escalated => fm.(escalated := fm.escalated + 1)
    case Suppressed => fm.(suppressed := fm.suppressed + 1)
    case Abandoned => fm.(abandoned := fm.abandoned + 1)
    case _ => fm
  }

  lemma PickOnFlow(rest: map<string, Row>, id: string, f: Flow, w: Row -> int)
    requires id in rest
    ensures Total(rest, OnFlow(f, w))
            == (if rest[id].flow == f then w(rest[id]) else 0) + Total(rest - {id}, OnFlow(f, w))
  {
    TotalPick(rest, id, OnFlow(f, w));
  }

  lemma TalliedPick(fm: FlowMetrics, rest: map<string, Row>, id: string, f: Flow)
    requires id in rest
    ensures Tallied(fm, rest, f) == Tallied(if rest[id].flow == f then Credited(fm, rest[id]) else fm, rest - {id}, f)
  {
    hide Total, OnFlow;
    PickOnFlow(rest, id, f, InState(Recovered));
    PickOnFlow(rest, id, f, RecoveredAmountOf);
    PickOnFlow(rest, id, f, InState(Escalated));
    PickOnFlow(rest, id, f, InState(Suppressed));
    PickOnFlow(rest, id, f, InState(Abandoned));
    CreditedFields(fm, rest[id]);
    hide Credited, InState;
  }

  lemma CreditedFields(fm: FlowMetrics, e: Row)
    ensures Credited(fm, e) == FlowMetrics(
      fm.events, fm.recoveredCount + InState(Recovered)(e), fm.recoveredAmount + RecoveredAmountOf(e),
      fm.escalated + InState(Escalated)(e), fm.suppressed + InState(Suppressed)(e),
      fm.abandoned + InState(Abandoned)(e), fm.touches)
  {
  }

  /** Nothing is left to credit. */
  lemma TalliedNothing(fm: FlowMetrics, f: Flow)
    ensures Tallied(fm, map[], f) == fm
  {
  }

  predicate FlowsKnown(byFlow: map<Flow, FlowMetrics>, terminal: map<string, Row>) {
    forall id :: id in terminal ==> terminal[id].flow in byFlow
  }

  /** Crediting the rest of the terminal rows to `byFlow` gives the same as
      crediting them all to `start`. */
  ghost predicate TallyOn(start: map<Flow, FlowMetrics>, byFlow: map<Flow, FlowMetrics>, all: map<string, Row>,
                          rest: map<string, Row>) {
    && byFlow.Keys == start.Keys && FlowsKnown(start, rest)
    && forall f :: f in start ==> Tallied(byFlow[f], rest, f) == Tallied(start[f], all, f)
  }

  /** Likewise for the running totals. */
  ghost predicate SummedOn(all: map<string, Row>, rest: map<string, Row>, atRisk: int, count: int, amount: int) {
    && atRisk + Total(rest, AmountOf) == Total(all, AmountOf)
    && count + Total(rest, InState(Recovered)) == Total(all, InState(Recovered))
    && amount + Total(rest, RecoveredAmountOf) == Total(all, RecoveredAmountOf)
  }

  lemma TallyAdvances(start: map<Flow, FlowMetrics>, byFlow: map<Flow, FlowMetrics>, all: map<string, Row>,
                      rest: map<string, Row>, id: string)
    requires TallyOn(start, byFlow, all, rest) && id in rest
    ensures rest[id].flow in byFlow
    ensures TallyOn(start, byFlow[rest[id].flow := Credited(byFlow[rest[id].flow], rest[id])], all, rest - {id})
  {
    hide Tallied, Credited;
    forall f | f in start {
      TalliedPick(byFlow[f], rest, id, f);
    }
  }

  lemma SumAdvances(all: map<string, Row>, rest: map<string, Row>, atRisk: int, count: int, amount: int, id: string)
    requires SummedOn(all, rest, atRisk, count, amount) && id in rest
    ensures var e := rest[id];
            SummedOn(all, rest - {id}, atRisk + AmountOf(e), count + (if e.state.Recovered? then 1 else 0),
                     amount + RecoveredAmountOf(e))
  {
    TotalPick(rest, id, AmountOf);
    TotalPick(rest, id, InState(Recovered));
    TotalPick(rest, id, RecoveredAmountOf);
    hide Total;
  }

  method TallyTerminals(start: map<Flow, FlowMetrics>, terminal: map<string, Row>)
    returns (byFlow: map<Flow, FlowMetrics>, atRisk: int, recoveredCount: int, recoveredAmount: int)
    requires FlowsKnown(start, terminal)
    ensures byFlow == map f | f in start :: Tallied(start[f], terminal, f)
    ensures atRisk == Total(terminal, AmountOf)
    ensures recoveredCount == Total(terminal, InState(Recovered))
    ensures recoveredAmount == Total(terminal, RecoveredAmountOf)
  {
    hide TallyOn, SummedOn, Total, Tallied, Credited, FlowsKnown;
    byFlow, atRisk, recoveredCount, recoveredAmount := start, 0, 0, 0;
    var rest := terminal;
    TallyStarts(start, terminal);
    while rest != map[]
      invariant TallyOn(start, byFlow, terminal, rest)
      invariant SummedOn(terminal, rest, atRisk, recoveredCount, recoveredAmount)
      decreases |rest|
    {
      var id :| id in rest;
      var e := rest[id];
      TallyAdvances(start, byFlow, terminal, rest, id);
      SumAdvances(terminal, rest, atRisk, recoveredCount, recoveredAmount, id);
      atRisk := atRisk + AmountOf(e);
      if e.state.Recovered? {
        recoveredCount := recoveredCount + 1;
        recoveredAmount := recoveredAmount + AmountOf(e);
      }
      byFlow := byFlow[e.flow := Credited(byFlow[e.flow], e)];
      rest := rest - {id};
    }
    TallyEnds(start, byFlow, terminal);
    SumEnds(terminal, atRisk, recoveredCount, recoveredAmount);
  }

  lemma TallyStarts(start: map<Flow, FlowMetrics>, terminal: map<string, Row>)
    requires FlowsKnown(start, terminal)
    ensures TallyOn(start, start, terminal, terminal)
    ensures SummedOn(terminal, terminal, 0, 0, 0)
  {
  }

  lemma TallyEnds(start: map<Flow, FlowMetrics>, byFlow: map<Flow, FlowMetrics>, terminal: map<string, Row>)
    requires TallyOn(start, byFlow, terminal, map[])
    ensures byFlow == map f | f in start :: Tallied(start[f], terminal, f)
  {
    hide Tallied, FlowsKnown;
    forall f | f in start { TalliedNothing(byFlow[f], f); }
  }

  lemma SumEnds(terminal: map<string, Row>, atRisk: int, count: int, amount: int)
    requires SummedOn(terminal, map[], atRisk, count, amount)
    ensures atRisk == Total(terminal, AmountOf)
    ensures count == Total(terminal, InState(Recovered))
    ensures amount == Total(terminal, RecoveredAmountOf)
  {
  }

  // ---------- the exception list ----------

  /** The rest of the terminal rows still to be listed. */
  predicate ListedOn(list: seq<Row>, all: map<string, Row>, rest: map<string, Row>) {
    && (forall id :: id in rest ==> id in all && rest[id] == all[id])
    && (forall id :: id in all && id !in rest && IsException(all[id]) ==> all[id] in list)
    && (forall i :: 0 <= i < |list| ==> Listed(list[i], all, rest))
    && (forall i, j :: 0 <= i < j < |list| ==> list[i].eventId != list[j].eventId)
  }

  predicate Listed(r: Row, all: map<string, Row>, rest: map<string, Row>) {
    r.eventId in all && all[r.eventId] == r && r.eventId !in rest && IsException(r)
  }

  predicate KeyedById(m: map<string, Row>) {
    forall id :: id in m ==> m[id].eventId == id
  }

  lemma ListAdvances(list: seq<Row>, all: map<string, Row>, rest: map<string, Row>, id: string)
    requires ListedOn(list, all, rest) && KeyedById(all) && id in rest
    ensures ListedOn(if IsException(rest[id]) then list + [rest[id]] else list, all, rest - {id})
  {
    hide IsException;
    var e := rest[id];
    assert e.eventId == id;
    var next := if IsException(e) then list + [e] else list;
    assert forall i :: 0 <= i < |list| ==> Listed(list[i], all, rest - {id}) && list[i].eventId != id;
  }

  lemma {:induction false} DistinctIdsOccurOnce(list: seq<Row>, r: Row)
    requires forall i, j :: 0 <= i < j < |list| ==> list[i].eventId != list[j].eventId
    ensures multiset(list)[r] == if r in list then 1 else 0
  {
    if list != [] {
      assert list == [list[0]] + list[1..];
      DistinctIdsOccurOnce(list[1..], r);
      if r == list[0] {
        assert forall i :: 0 <= i < |list[1..]| ==> list[1..][i] == list[i + 1];
        assert r !in list[1..];
      }
    }
  }

  lemma ListEnds(list: seq<Row>, all: map<string, Row>)
    requires ListedOn(list, all, map[]) && KeyedById(all)
    ensures ListsExceptions(list, all)
  {
    hide IsException;
    forall r ensures multiset(list)[r] == if IsExceptionOf(r, all) then 1 else 0 {
      DistinctIdsOccurOnce(list, r);
    }
  }

  /** Statuses counted over the list are counts over the terminal rows. */
  lemma ListCountAdvances(list: seq<Row>, all: map<string, Row>, rest: map<string, Row>, id: string, s: AgentState)
    requires id in rest && s in {Escalated, Abandoned}
    requires |Filter(list, HasState(s))| + Total(rest, InState(s)) == Total(all, InState(s))
    ensures |Filter(if IsException(rest[id]) then list + [rest[id]] else list, HasState(s))|
            + Total(rest - {id}, InState(s))
         == Total(all, InState(s))
  {
    TotalPick(rest, id, InState(s));
    hide Total;
    FilterConcat(list, [rest[id]], HasState(s));
    assert Filter([rest[id]], HasState(s)) == if HasState(s)(rest[id]) then [rest[id]] else [];
  }

  function HasState(s: AgentState): Row -> bool { (r: Row) => r.state == s }

  /** The list is built in the order in which the map is traversed, then sorted. */
  method ListExceptions(terminal: map<string, Row>) returns (list: seq<Row>)
    requires KeyedById(terminal)
    ensures ListsExceptions(list, terminal) && SortedByFlow(list)
    ensures |Filter(list, HasState(Escalated))| == Total(terminal, InState(Escalated))
    ensures |Filter(list, HasState(Abandoned))| == Total(terminal, InState(Abandoned))
  {
    hide ListedOn, Filter, ListsExceptions, SortedByFlow;
    list := [];
    var rest := terminal;
    ListStarts(terminal);
    while rest != map[]
      invariant ListedOn(list, terminal, rest)
      invariant |Filter(list, HasState(Escalated))| + Total(rest, InState(Escalated))
                == Total(terminal, InState(Escalated))
      invariant |Filter(list, HasState(Abandoned))| + Total(rest, InState(Abandoned))
                == Total(terminal, InState(Abandoned))
      decreases |rest|
    {
      var id :| id in rest;
      ListAdvances(list, terminal, rest, id);
      ListCountAdvances(list, terminal, rest, id, Escalated);
      ListCountAdvances(list, terminal, rest, id, Abandoned);
      if rest[id].state.Escalated? || rest[id].state.Abandoned? || rest[id].state.WaitingOnPtp? {
        list := list + [rest[id]];
      }
      rest := rest - {id};
    }
    ListEnds(list, terminal);
    ghost var unsorted := list;
    list := SortByFlow(list);
    OrderIsImmaterial(unsorted, list, terminal);
  }

  lemma OrderIsImmaterial(a: seq<Row>, b: seq<Row>, terminal: map<string, Row>)
    requires multiset(a) == multiset(b) && ListsExceptions(a, terminal)
    ensures ListsExceptions(b, terminal)
    ensures |Filter(a, HasState(Escalated))| == |Filter(b, HasState(Escalated))|
    ensures |Filter(a, HasState(Abandoned))| == |Filter(b, HasState(Abandoned))|
  {
    FilterIgnoresOrder(a, b, HasState(Escalated));
    FilterIgnoresOrder(a, b, HasState(Abandoned));
  }

  lemma ListStarts(terminal: map<string, Row>)
    ensures ListedOn([], terminal, terminal)
    ensures Filter([], HasState(Escalated)) == Filter([], HasState(Abandoned)) == []
  {
  }

  lemma {:induction false} TerminalIsKeyed(rows: seq<Row>)
    ensures KeyedById(TerminalOf(rows))
    ensures TerminalOf(rows).Keys <= FirstRows(rows).Keys
    ensures forall id :: id in TerminalOf(rows) ==> TerminalOf(rows)[id] in rows && Decides(TerminalOf(rows)[id])
    decreases |rows|
  {
    if rows != [] {
      TerminalIsKeyed(rows[..|rows| - 1]);
    }
  }

  // ---------- the whole computation ----------

  method CountList(list: seq<Row>, s: AgentState) returns (n: nat)
    ensures n == |Filter(list, HasState(s))|
  {
    n := 0;
    for i := 0 to |list|
      invariant n == |Filter(list[..i], HasState(s))|
    {
      assert list[..i + 1] == list[..i] + [list[i]];
      FilterConcat(list[..i], [list[i]], HasState(s));
      if list[i].state == s {
        n := n + 1;
      }
    }
    assert list[..|list|] == list;
  }

  method CountSuppressed(terminal: map<string, Row>) returns (n: int)
    ensures n == Total(terminal, InState(Suppressed))
  {
    n := 0;
    var rest := terminal;
    while rest != map[]
      invariant n + Total(rest, InState(Suppressed)) == Total(terminal, InState(Suppressed))
      decreases |rest|
    {
      var id :| id in rest;
      TotalPick(rest, id, InState(Suppressed));
      if rest[id].state.Suppressed? {
        n := n + 1;
      }
      rest := rest - {id};
    }
  }

  /** The metrics are the fold that `MetricsOf` describes, whatever the order in
      which the terminal map is traversed. */
  method ComputeMetrics(log: seq<Entry>) returns (m: Metrics, exceptions: seq<Row>)
    ensures m == MetricsOf(RowsOf(log))
    ensures ListsExceptions(exceptions, TerminalOf(RowsOf(log))) && SortedByFlow(exceptions)
  {
    hide Total, Scanned, Tallied, TerminalOf, ListsExceptions, SortedByFlow, Filter, FlowKeys, ScannedTo,
         TouchesOfFlows, FirstRows;
    ghost var rows := RowsOf(log);
    var scanned, terminal, seen := ScanLog(log);
    ScanEnds(rows, scanned, terminal, seen);
    var byFlow, atRisk, recoveredCount, recoveredAmount := TallyTerminals(scanned, terminal);
    exceptions := ListExceptions(terminal);
    forall f { TalliedTouches(rows, terminal, f); }
    var touches := SumTouches(rows, byFlow);
    var escalated := CountList(exceptions, Escalated);
    var abandoned := CountList(exceptions, Abandoned);
    var suppressed := CountSuppressed(terminal);
    m := Metrics(|terminal|, atRisk, recoveredCount, recoveredAmount, Ratio(recoveredAmount, atRisk),
                 touches, Ratio(touches, recoveredCount), escalated, abandoned, suppressed, byFlow);
  }

  lemma TerminalFlowsAreKeys(rows: seq<Row>, id: string)
    requires id in TerminalOf(rows)
    ensures TerminalOf(rows)[id].flow in FlowKeys(rows)
  {
    TerminalIsKeyed(rows);
    var r := TerminalOf(rows)[id];
    hide TerminalOf, FirstRows;
    assert r in rows && !IsDuplicate(r);
  }

  lemma ScanEnds(rows: seq<Row>, byFlow: map<Flow, FlowMetrics>, terminal: map<string, Row>, seen: set<string>)
    requires ScannedTo(rows, |rows|, byFlow, terminal, seen)
    ensures terminal == TerminalOf(rows) && byFlow == (map f | f in FlowKeys(rows) :: Scanned(rows, f))
    ensures seen == FirstRows(rows).Keys
    ensures FlowsKnown(byFlow, terminal) && KeyedById(terminal)
    ensures forall f :: f in FLOW_TYPES ==> f in byFlow
  {
    hide Scanned, TerminalOf, FirstRows;
    assert rows[..|rows|] == rows;
    TerminalIsKeyed(rows);
    assert forall f :: f in byFlow ==> FlowEntry(byFlow, f) == byFlow[f];
    forall f | f in FLOW_TYPES ensures f in byFlow {
      assert f in FlowKeys(rows);
    }
    forall id | id in terminal { TerminalFlowsAreKeys(rows, id); }
    hide FlowKeys, FlowEntry, KeyedById;
  }

  lemma TalliedTouches(rows: seq<Row>, terminal: map<string, Row>, f: Flow)
    ensures Tallied(Scanned(rows, f), terminal, f).touches == |Filter(rows, TouchOn(f))|
  {
  }

  method SumTouches(ghost rows: seq<Row>, byFlow: map<Flow, FlowMetrics>) returns (touches: int)
    requires forall f :: f in FLOW_TYPES ==> f in byFlow && byFlow[f].touches == |Filter(rows, TouchOn(f))|
    ensures touches == TouchesOfFlows(rows, |FLOW_TYPES|)
  {
    hide Filter, TouchOn;
    touches := 0;
    for i := 0 to |FLOW_TYPES|
      invariant touches == TouchesOfFlows(rows, i)
    {
      touches := touches + byFlow[FLOW_TYPES[i]].touches;
    }
  }
}
