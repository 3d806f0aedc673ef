/** The hash chain over the audit log (go/rz/chain.go). SHA-256 and the JSON
    encoder are arbitrary functions; no injectivity of the hash is assumed, so
    every theorem that needs one names the two strings, out of those hashed in the
    very logs it speaks of, whose digests would have to coincide. */
module Chain {
  import opened Types

  const GENESIS := "0000000000000000000000000000000000000000000000000000000000000000"

  /** The keys of the payload object, one per field of a row. */
  datatype Key =
    | KEventId | KTimestamp | KFlow | KReason | KRule | KDecision | KActor
    | KOutcome | KState | KAttempt | KAmount | KCurrency | KInvoiceId
    | KCustomerId | KChannel | KNotes | KTriggeredBy

  datatype Value =
    | Str(s: string) | Num(n: int) | Time(ms: int) | FlowName(f: Flow) | ReasonName(r: Reason)
    | RuleName(id: RuleId) | DecisionName(d: Decision) | ActorName(a: Actor)
    | StateName(st: AgentState) | ChannelName(c: Channel)

  type Payload = map<Key, Value>

  /** The hash function and the encoder of payload objects. */
  datatype Crypto = Crypto(sha: string -> string, marshal: Payload -> string)

  /** Digests have 64 characters and distinct objects encode distinctly. */
  ghost predicate Sound(c: Crypto) {
    && (forall s: string :: |c.sha(s)| == 64)
    && (forall p: Payload, q: Payload :: c.marshal(p) == c.marshal(q) ==> p == q)
  }

  /** The nine fields that are always present. */
  function RequiredPayload(e: Row): Payload {
    map[
      KEventId := Str(e.eventId), KTimestamp := Time(e.timestamp), KFlow := FlowName(e.flow),
      KReason := ReasonName(e.reason), KRule := RuleName(e.rule), KDecision := DecisionName(e.decision),
      KActor := ActorName(e.actor), KOutcome := Str(e.outcome), KState := StateName(e.state)]
  }

  /** An optional field is left out of the payload when it is unset. */
  function StablePayload(e: Row): Payload {
    var m := Put(RequiredPayload(e), KAttempt, if e.attempt.Some? then Some(Num(e.attempt.value)) else None);
    var m := Put(m, KAmount, if e.amount.Some? then Some(Num(e.amount.value)) else None);
    var m := Put(m, KCurrency, TextField(e.currency));
    var m := Put(m, KInvoiceId, TextField(e.invoiceId));
    var m := Put(m, KCustomerId, TextField(e.customerId));
    var m := Put(m, KChannel, if e.channel != NoChannel then Some(ChannelName(e.channel)) else None);
    var m := Put(m, KNotes, TextField(e.notes));
    Put(m, KTriggeredBy, TextField(e.triggeredBy))
  }

  function Lookup(m: Payload, k: Key): Option<Value> {
    if k in m then Some(m[k]) else None
  }

  /** Sets a key, unless its field is unset. */
  function Put(m: Payload, k: Key, v: Option<Value>): (r: Payload)
    ensures forall j :: Lookup(r, j) == if j == k && v.Some? then v else Lookup(m, j)
  {
    if v.Some? then m[k := v.value] else m
  }

  function TextField(s: string): Option<Value> {
    if s != "" then Some(Str(s)) else None
  }

  /** What the payload of a row holds under a key: `None` for an unset field. */
  function Field(e: Row, k: Key): Option<Value> {
    match k
    case KEventId => Some(Str(e.eventId))
    case KTimestamp => Some(Time(e.timestamp))
    case KFlow => Some(FlowName(e.flow))
    case KReason => Some(ReasonName(e.reason))
    case KRule => Some(RuleName(e.rule))
    case KDecision => Some(DecisionName(e.decision))
    case KActor => Some(ActorName(e.actor))
    case KOutcome => Some(Str(e.outcome))
    case KState => Some(StateName(e.state))
    case KAttempt => if e.attempt.Some? then Some(Num(e.attempt.value)) else None
    case KAmount => if e.amount.Some? then Some(Num(e.amount.value)) else None
    case KCurrency => TextField(e.currency)
    case KInvoiceId => TextField(e.invoiceId)
    case KCustomerId => TextField(e.customerId)
    case KChannel => if e.channel != NoChannel then Some(ChannelName(e.channel)) else None
    case KNotes => TextField(e.notes)
    case KTriggeredBy => TextField(e.triggeredBy)
  }

  predicate IsRequired(k: Key) {
    k.KEventId? || k.KTimestamp? || k.KFlow? || k.KReason? || k.KRule? || k.KDecision? || k.KActor? || k.KOutcome?
    || k.KState?
  }

  lemma RequiredPayloadHolds(e: Row, k: Key)
    ensures Lookup(RequiredPayload(e), k) ==
            if IsRequired(k) then Field(e, k) else None
  {
  }

  /** A key the eight optional puts do not set keeps its value. */
  lemma RequiredKeysHold(e: Row, k: Key)
    requires IsRequired(k)
    ensures Lookup(StablePayload(e), k) == Field(e, k)
  {
    RequiredPayloadHolds(e, k);
    hide Put, RequiredPayload, Lookup, Field, TextField;
  }

  lemma OptionalKeysHold(e: Row, k: Key)
    requires !IsRequired(k)
    ensures Lookup(StablePayload(e), k) == Field(e, k)
  {
    RequiredPayloadHolds(e, k);
    hide Put, RequiredPayload, Lookup, TextField;
  }

  lemma PayloadHolds(e: Row, k: Key)
    ensures Lookup(StablePayload(e), k) == Field(e, k)
  {
    hide StablePayload, Lookup, Field;
    if IsRequired(k) {
      RequiredKeysHold(e, k);
    } else {
      OptionalKeysHold(e, k);
    }
  }

  /** The fields that are always set. */
  predicate SameRequired(a: Row, b: Row) {
    && a.eventId == b.eventId && a.timestamp == b.timestamp && a.flow == b.flow && a.reason == b.reason
    && a.rule == b.rule && a.decision == b.decision && a.actor == b.actor && a.outcome == b.outcome
    && a.state == b.state
  }

  lemma RequiredFieldsDetermine(a: Row, b: Row)
    requires forall k :: Field(a, k) == Field(b, k)
    ensures SameRequired(a, b)
  {
    assert Field(a, KEventId) == Field(b, KEventId) && Field(a, KTimestamp) == Field(b, KTimestamp);
    assert Field(a, KFlow) == Field(b, KFlow) && Field(a, KReason) == Field(b, KReason);
    assert Field(a, KRule) == Field(b, KRule) && Field(a, KDecision) == Field(b, KDecision);
    assert Field(a, KActor) == Field(b, KActor) && Field(a, KOutcome) == Field(b, KOutcome);
    assert Field(a, KState) == Field(b, KState);
  }

  lemma TextFieldDetermines(a: string, b: string)
    requires TextField(a) == TextField(b)
    ensures a == b
  {
  }

  /** The text fields that may be unset, and the others. */
  predicate SameTexts(a: Row, b: Row) {
    && a.currency == b.currency && a.invoiceId == b.invoiceId && a.customerId == b.customerId
    && a.notes == b.notes && a.triggeredBy == b.triggeredBy
  }

  lemma TextsDetermine(a: Row, b: Row)
    requires forall k :: Field(a, k) == Field(b, k)
    ensures SameTexts(a, b)
  {
    hide TextField;
    assert Field(a, KCurrency) == Field(b, KCurrency) && Field(a, KInvoiceId) == Field(b, KInvoiceId);
    assert Field(a, KCustomerId) == Field(b, KCustomerId) && Field(a, KNotes) == Field(b, KNotes);
    assert Field(a, KTriggeredBy) == Field(b, KTriggeredBy);
    TextFieldDetermines(a.currency, b.currency);
    TextFieldDetermines(a.invoiceId, b.invoiceId);
    TextFieldDetermines(a.customerId, b.customerId);
    TextFieldDetermines(a.notes, b.notes);
    TextFieldDetermines(a.triggeredBy, b.triggeredBy);
  }

  lemma OthersDetermine(a: Row, b: Row)
    requires forall k :: Field(a, k) == Field(b, k)
    ensures a.attempt == b.attempt && a.amount == b.amount && a.channel == b.channel
  {
    hide TextField;
    assert Field(a, KAttempt) == Field(b, KAttempt) && Field(a, KAmount) == Field(b, KAmount);
    assert Field(a, KChannel) == Field(b, KChannel);
  }

  lemma FieldsDetermine(a: Row, b: Row)
    requires forall k :: Field(a, k) == Field(b, k)
    ensures a == b
  {
    hide Field;
    RequiredFieldsDetermine(a, b);
    TextsDetermine(a, b);
    OthersDetermine(a, b);
  }

  /** The payload determines all 17 fields, unset ones included. */
  lemma StablePayloadIsInjective(a: Row, b: Row)
    requires StablePayload(a) == StablePayload(b)
    ensures a == b
  {
    forall k: Key ensures Field(a, k) == Field(b, k) {
      PayloadHolds(a, k);
      PayloadHolds(b, k);
    }
    FieldsDetermine(a, b);
  }

  /** The string whose digest is a row's hash. */
  function Preimage(c: Crypto, prevHash: string, e: Row): string {
    prevHash + c.marshal(StablePayload(e))
  }

  function ComputeHash(c: Crypto, prevHash: string, e: Row): string {
    c.sha(Preimage(c, prevHash, e))
  }

  /** The hash the next row must link to. */
  function Tail(log: seq<Entry>): string {
    if log == [] then GENESIS else log[|log| - 1].hash
  }

  function AppendAuditEntry(c: Crypto, log: seq<Entry>, e: Row): seq<Entry> {
    log + [Entry(e, Tail(log), ComputeHash(c, Tail(log), e))]
  }

  /** Row `i` links to its predecessor and carries the right hash. */
  predicate LinkedAt(c: Crypto, log: seq<Entry>, i: nat)
    requires i < |log|
  {
    && log[i].prevHash == Tail(log[..i])
    && log[i].hash == ComputeHash(c, log[i].prevHash, log[i].row)
  }

  predicate ValidChain(c: Crypto, log: seq<Entry>) {
    forall i :: 0 <= i < |log| ==> LinkedAt(c, log, i)
  }

  datatype Verification = Verification(valid: bool, brokenAt: int, entries: nat)

  /** Reports the first broken row: the rows before it verify and it does not. */
  method VerifyChain(c: Crypto, log: seq<Entry>) returns (v: Verification)
    ensures v.valid <==> ValidChain(c, log)
    ensures v.valid ==> v.brokenAt == -1
    ensures !v.valid ==> 0 <= v.brokenAt < |log| && ValidChain(c, log[..v.brokenAt]) && !LinkedAt(c, log, v.brokenAt)
    ensures v.entries == |log|
  {
    for i := 0 to |log|
      invariant forall j :: 0 <= j < i ==> LinkedAt(c, log, j)
    {
      var expectedPrev := GENESIS;
      if i > 0 {
        expectedPrev := log[i - 1].hash;
      }
      assert expectedPrev == Tail(log[..i]);
      if log[i].prevHash != expectedPrev || log[i].hash != ComputeHash(c, log[i].prevHash, log[i].row) {
        PrefixLinks(c, log, i);
        assert !LinkedAt(c, log, i);
        return Verification(false, i, |log|);
      }
    }
    return Verification(true, -1, |log|);
  }

  /** `VerifyChain` reports row `k`. */
  predicate BreaksAt(c: Crypto, log: seq<Entry>, k: nat) {
    k < |log| && ValidChain(c, log[..k]) && !LinkedAt(c, log, k)
  }

  // ---------- prefixes ----------

  lemma PrefixLinks(c: Crypto, log: seq<Entry>, n: nat)
    requires n <= |log|
    ensures forall i :: 0 <= i < n ==> (LinkedAt(c, log[..n], i) <==> LinkedAt(c, log, i))
  {
    forall i | 0 <= i < n ensures LinkedAt(c, log[..n], i) <==> LinkedAt(c, log, i) {
      assert log[..n][..i] == log[..i];
    }
  }

  /** Truncating a valid chain leaves a valid chain. */
  lemma TruncationVerifies(c: Crypto, log: seq<Entry>, n: nat)
    requires ValidChain(c, log) && n <= |log|
    ensures ValidChain(c, log[..n])
  {
    PrefixLinks(c, log, n);
  }

  lemma AppendVerifies(c: Crypto, log: seq<Entry>, e: Row)
    requires ValidChain(c, log)
    ensures ValidChain(c, AppendAuditEntry(c, log, e))
  {
    var out := AppendAuditEntry(c, log, e);
    assert out[..|log|] == log;
    PrefixLinks(c, out, |log|);
  }

  // ---------- what a hash commits to ----------

  /** Two different strings, each hashed in one of the two logs, share a digest. */
  predicate Collision(c: Crypto, a: seq<Entry>, b: seq<Entry>) {
    exists i, j :: 0 <= i < |a| && 0 <= j < |b| && CollisionAt(c, a[i], b[j])
  }

  predicate CollisionAt(c: Crypto, x: Entry, y: Entry) {
    && Preimage(c, x.prevHash, x.row) != Preimage(c, y.prevHash, y.row)
    && ComputeHash(c, x.prevHash, x.row) == ComputeHash(c, y.prevHash, y.row)
  }

  predicate IsGenesisPreimage(c: Crypto, x: Entry) {
    ComputeHash(c, x.prevHash, x.row) == GENESIS
  }

  /** A string hashed in the log has the all-zero digest. */
  predicate GenesisPreimage(c: Crypto, a: seq<Entry>) {
    exists i :: 0 <= i < |a| && IsGenesisPreimage(c, a[i])
  }

  lemma LinksAreDigests(c: Crypto, log: seq<Entry>, i: nat)
    requires Sound(c) && ValidChain(c, log) && i < |log|
    ensures |log[i].prevHash| == 64
  {
    assert LinkedAt(c, log, i);
    if i > 0 {
      assert LinkedAt(c, log, i - 1);
      assert log[..i][i - 1] == log[i - 1];
    }
  }

  /** A shared digest is a shared row and a shared predecessor, or a collision. */
  lemma HashCommits(c: Crypto, a: seq<Entry>, i: nat, b: seq<Entry>, j: nat)
    requires Sound(c) && ValidChain(c, a) && ValidChain(c, b) && i < |a| && j < |b|
    requires a[i].hash == b[j].hash
    ensures CollisionAt(c, a[i], b[j]) || a[i] == b[j]
  {
    LinksAreDigests(c, a, i);
    LinksAreDigests(c, b, j);
    assert LinkedAt(c, a, i) && LinkedAt(c, b, j);
    var p, q := c.marshal(StablePayload(a[i].row)), c.marshal(StablePayload(b[j].row));
    if Preimage(c, a[i].prevHash, a[i].row) == Preimage(c, b[j].prevHash, b[j].row) {
      assert (a[i].prevHash + p)[..64] == a[i].prevHash && (b[j].prevHash + q)[..64] == b[j].prevHash;
      assert (a[i].prevHash + p)[64..] == p && (b[j].prevHash + q)[64..] == q;
      StablePayloadIsInjective(a[i].row, b[j].row);
    }
  }

  /** A verified tail hash commits to the whole log. */
  lemma {:induction false} TailCommits(c: Crypto, a: seq<Entry>, b: seq<Entry>)
    requires Sound(c) && ValidChain(c, a) && ValidChain(c, b) && Tail(a) == Tail(b)
    ensures a == b || Collision(c, a, b) || GenesisPreimage(c, a) || GenesisPreimage(c, b)
    decreases |a|
  {
    hide CollisionAt, Preimage, StablePayload;
    if a == [] || b == [] {
      if a != [] {
        assert LinkedAt(c, a, |a| - 1) && IsGenesisPreimage(c, a[|a| - 1]);
      }
      if b != [] {
        assert LinkedAt(c, b, |b| - 1) && IsGenesisPreimage(c, b[|b| - 1]);
      }
    } else {
      var i, j := |a| - 1, |b| - 1;
      HashCommits(c, a, i, b, j);
      if a[i] == b[j] {
        assert LinkedAt(c, a, i) && LinkedAt(c, b, j);
        TruncationVerifies(c, a, i);
        TruncationVerifies(c, b, j);
        TailCommits(c, a[..i], b[..j]);
        assert a == a[..i] + [a[i]] && b == b[..j] + [b[j]];
        BrokenInPrefix(c, a, b, i, j);
      }
    }
  }

  /** What is broken in a prefix is broken in the log. */
  lemma BrokenInPrefix(c: Crypto, a: seq<Entry>, b: seq<Entry>, i: nat, j: nat)
    requires i <= |a| && j <= |b|
    ensures Collision(c, a[..i], b[..j]) ==> Collision(c, a, b)
    ensures GenesisPreimage(c, a[..i]) ==> GenesisPreimage(c, a)
    ensures GenesisPreimage(c, b[..j]) ==> GenesisPreimage(c, b)
  {
    hide CollisionAt, IsGenesisPreimage;
    if Collision(c, a[..i], b[..j]) {
      var x, y :| 0 <= x < i && 0 <= y < j && CollisionAt(c, a[..i][x], b[..j][y]);
      assert CollisionAt(c, a[x], b[y]);
    }
    if GenesisPreimage(c, a[..i]) {
      var x :| 0 <= x < i && IsGenesisPreimage(c, a[..i][x]);
      assert IsGenesisPreimage(c, a[x]);
    }
    if GenesisPreimage(c, b[..j]) {
      var y :| 0 <= y < j && IsGenesisPreimage(c, b[..j][y]);
      assert IsGenesisPreimage(c, b[y]);
    }
  }

  /** All hashes of a valid chain are distinct. */
  lemma {:induction false} HashesAreDistinct(c: Crypto, a: seq<Entry>, i: nat, j: nat)
    requires Sound(c) && ValidChain(c, a) && i < j < |a| && a[i].hash == a[j].hash
    ensures Collision(c, a, a) || GenesisPreimage(c, a)
    decreases i
  {
    HashCommits(c, a, i, a, j);
    if a[i] == a[j] {
      assert LinkedAt(c, a, i) && LinkedAt(c, a, j) && LinkedAt(c, a, j - 1);
      if i == 0 {
        assert IsGenesisPreimage(c, a[j - 1]);
      } else {
        HashesAreDistinct(c, a, i - 1, j - 1);
      }
    }
  }

  // ---------- localising damage ----------

  /** Editing the payload of row `k` of a valid chain is reported at `k`. */
  lemma EditIsReported(c: Crypto, log: seq<Entry>, k: nat, row: Row)
    requires Sound(c) && ValidChain(c, log) && k < |log| && row != log[k].row
    ensures var edited := log[k := log[k].(row := row)];
            BreaksAt(c, edited, k) || CollisionAt(c, log[k], edited[k])
  {
    var edited := log[k := log[k].(row := row)];
    assert edited[..k] == log[..k];
    TruncationVerifies(c, log, k);
    assert LinkedAt(c, log, k);
    if LinkedAt(c, edited, k) {
      var p, q := c.marshal(StablePayload(log[k].row)), c.marshal(StablePayload(row));
      var h := log[k].prevHash;
      if h + p == h + q {
        assert p == (h + p)[|h|..] && q == (h + q)[|h|..];
        StablePayloadIsInjective(log[k].row, row);
      }
    }
  }

  /** Changing either hash field of row `k` of a valid chain is reported at `k`. */
  lemma HashEditIsReported(c: Crypto, log: seq<Entry>, k: nat, e: Entry)
    requires ValidChain(c, log) && k < |log| && e.row == log[k].row && e != log[k]
    ensures BreaksAt(c, log[k := e], k)
  {
    assert log[k := e][..k] == log[..k];
    TruncationVerifies(c, log, k);
    assert LinkedAt(c, log, k);
  }

  /** Deleting an interior row `k` of a valid chain is reported at `k`. */
  lemma DeletionIsReported(c: Crypto, log: seq<Entry>, k: nat)
    requires Sound(c) && ValidChain(c, log) && k + 1 < |log|
    ensures BreaksAt(c, log[..k] + log[k + 1..], k) || Collision(c, log, log) || GenesisPreimage(c, log)
  {
    var cut := log[..k] + log[k + 1..];
    assert cut[..k] == log[..k] && cut[k] == log[k + 1];
    TruncationVerifies(c, log, k);
    assert LinkedAt(c, log, k) && LinkedAt(c, log, k + 1);
    assert log[..k + 1][k] == log[k];
    if LinkedAt(c, cut, k) {
      assert log[k].hash == Tail(log[..k]);
      if k == 0 {
        assert IsGenesisPreimage(c, log[0]);
      } else {
        HashesAreDistinct(c, log, k - 1, k);
      }
    }
  }
}
