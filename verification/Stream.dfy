/** The live audit stream: the broadcast hub (go/rz/stream.go) and a client that
    subscribes, replays the log, and then follows it live
    (go/rz/streamserver.go:131-162). */
module Stream {
  import opened Types

  datatype Payload = Audit(entry: Entry) | ChainStatus(valid: bool, entries: int, brokenAt: int)

  const CAPACITY := 100

  /** A buffered channel: sending to a closed one panics. */
  class Channel {
    var queue: seq<Payload>
    var isOpen: bool

    constructor ()
      ensures queue == [] && isOpen
    {
      queue, isOpen := [], true;
    }

    /** The non-blocking send of the fan-out: a full buffer drops the payload. */
    method Offer(p: Payload)
      requires isOpen
      modifies this
      ensures isOpen && queue == Offered(old(queue), p)
    {
      if |queue| < CAPACITY {
        queue := queue + [p];
      }
    }

    method Receive() returns (p: Payload)
      requires queue != []
      modifies this
      ensures isOpen == old(isOpen) && p == old(queue)[0] && queue == old(queue)[1..]
    {
      p, queue := queue[0], queue[1..];
    }

    method Close()
      requires isOpen
      modifies this
      ensures !isOpen && queue == old(queue)
    {
      isOpen := false;
    }
  }

  function Offered(queue: seq<Payload>, p: Payload): seq<Payload> {
    if |queue| < CAPACITY then queue + [p] else queue
  }

  class StreamHub {
    var clients: set<Channel>
    var firstSubscribed: bool

    /** Registered channels are open, so no send ever hits a closed one. */
    ghost predicate Valid()
      reads this, clients
    {
      (forall ch :: ch in clients ==> ch.isOpen) && (clients != {} ==> firstSubscribed)
    }

    constructor ()
      ensures Valid() && clients == {} && !firstSubscribed
    {
      clients, firstSubscribed := {}, false;
    }

    method Subscribe() returns (ch: Channel)
      requires Valid()
      modifies this
      ensures Valid() && fresh(ch) && ch.queue == [] && ch.isOpen
      ensures clients == old(clients) + {ch} && firstSubscribed
    {
      ch := new Channel();
      if clients == {} {
        if !firstSubscribed {
          firstSubscribed := true;
        }
      }
      clients := clients + {ch};
    }

    /** Safe to repeat: only a registered channel is closed. */
    method Unsubscribe(ch: Channel)
      requires Valid()
      modifies this, ch
      ensures Valid() && clients == old(clients) - {ch} && ch.queue == old(ch.queue)
      ensures ch in old(clients) ==> !ch.isOpen
      ensures ch !in old(clients) ==> ch.isOpen == old(ch.isOpen)
    {
      if ch in clients {
        clients := clients - {ch};
        ch.Close();
      }
    }

    /** Every client is offered the payload once, in whatever order the map is
        traversed, and nothing else changes. */
    method BroadcastBytes(payload: Payload)
      requires Valid()
      modifies clients
      ensures Valid() && clients == old(clients)
      ensures forall ch :: ch in clients ==>
                ch.queue == old(ch.queue) + (if |old(ch.queue)| < 100 then [payload] else [])
    {
      var rest := clients;
      while rest != {}
        invariant rest <= clients && Valid()
        invariant forall ch :: ch in rest ==> ch.queue == old(ch.queue)
        invariant forall ch :: ch in clients - rest ==> ch.queue == Offered(old(ch.queue), payload)
        decreases |rest|
      {
        var ch :| ch in rest;
        ch.Offer(payload);
        rest := rest - {ch};
      }
    }
  }

  // ---------- one client of the stream ----------

  /** Where the client's handler is: not yet connected, subscribed but not yet
      replaying, or following the live queue. */
  datatype Phase = Connecting | Subscribed | Live | Gone

  /** `writing` is the row an append has written and not yet broadcast: the append
      holds the store's lock, so nothing can read the log in between, but a client
      can subscribe. `sent` is what the client was sent, the first `replayed`
      payloads being the replay; `from` is the first row broadcast to it. */
  datatype Feed = Feed(
    log: seq<Entry>, writing: bool, phase: Phase, queue: seq<Payload>, dropped: bool,
    sent: seq<Payload>, replayed: nat, from: nat)

  datatype Op =
    WriteRow(e: Entry) | BroadcastRow | BroadcastStatus(p: Payload) | Subscribe | Replay | Receive | Disconnect

  function Opened(log: seq<Entry>): Feed {
    Feed(log, false, Connecting, [], false, [], 0, 0)
  }

  function AsAudit(rows: seq<Entry>): (ps: seq<Payload>)
    ensures |ps| == |rows| && forall i :: 0 <= i < |rows| ==> ps[i] == Audit(rows[i])
  {
    seq(|rows|, i requires 0 <= i < |rows| => Audit(rows[i]))
  }

  predicate Listening(f: Feed) { f.phase.Subscribed? || f.phase.Live? }

  function Deliver(f: Feed, p: Payload): Feed {
    if Listening(f) then f.(queue := Offered(f.queue, p), dropped := f.dropped || |f.queue| >= CAPACITY) else f
  }

  /** One atomic operation; one that is not possible changes nothing. */
  function Next(f: Feed, op: Op): Feed {
    match op
    case WriteRow(e) => if f.writing then f else f.(log := f.log + [e], writing := true)
    case BroadcastRow =>
      if f.writing && f.log != [] then Deliver(f, Audit(f.log[|f.log| - 1])).(writing := false) else f
    case BroadcastStatus(p) => if p.ChainStatus? then Deliver(f, p) else f
    case Subscribe => if f.phase.Connecting? then f.(phase := Phase.Subscribed, from := Published(f)) else f
    case Replay =>
      if f.phase.Subscribed? && !f.writing then f.(phase := Live, sent := AsAudit(f.log), replayed := |f.log|) else f
    case Receive =>
      if f.phase.Live? && f.queue != [] then f.(sent := f.sent + [f.queue[0]], queue := f.queue[1..]) else f
    case Disconnect => if Listening(f) then f.(phase := Gone) else f
  }

  /** The number of rows written and broadcast. */
  function Published(f: Feed): nat {
    if f.writing && f.log != [] then |f.log| - 1 else |f.log|
  }

  function Reach(f: Feed, ops: seq<Op>): Feed
    decreases |ops|
  {
    if ops == [] then f else Next(Reach(f, ops[..|ops| - 1]), ops[|ops| - 1])
  }

  predicate IsAudit(p: Payload) { p.Audit? }

  /** The audit rows among some payloads. */
  function Rows(ps: seq<Payload>): seq<Payload> { Filter(ps, IsAudit) }

  /** While nothing is dropped, the live part and the queue together are exactly the
      rows broadcast since the client subscribed. */
  predicate Inv(f: Feed) {
    && (f.writing ==> f.log != [])
    && (f.phase.Connecting? ==> f.sent == [] && f.replayed == 0 && f.queue == [] && !f.dropped)
    && (f.phase.Subscribed? ==> f.sent == [] && f.replayed == 0 && f.from <= Published(f)
                                && (!f.dropped ==> Rows(f.queue) == AsAudit(f.log[f.from..Published(f)])))
    && (f.phase.Live? ==> f.from <= f.replayed <= Published(f) && f.replayed <= |f.sent|
                          && f.sent[..f.replayed] == AsAudit(f.log[..f.replayed])
                          && (!f.dropped
                              ==> Rows(f.sent[f.replayed..] + f.queue) == AsAudit(f.log[f.from..Published(f)])))
  }

  lemma RowsNext(ps: seq<Payload>, p: Payload)
    ensures Rows(ps + [p]) == Rows(ps) + (if p.Audit? then [p] else [])
  {
    FilterConcat(ps, [p], IsAudit);
    assert Filter([p], IsAudit) == if p.Audit? then [p] else [];
  }

  lemma AsAuditNext(log: seq<Entry>, a: nat, b: nat)
    requires a <= b < |log|
    ensures AsAudit(log[a..b + 1]) == AsAudit(log[a..b]) + [Audit(log[b])]
  {
  }

  lemma DeliverRows(f: Feed, p: Payload)
    requires Listening(f) && |f.queue| < CAPACITY
    ensures var f' := Deliver(f, p);
            && f'.dropped == f.dropped
            && Rows(f'.queue) == Rows(f.queue) + (if p.Audit? then [p] else [])
            && forall seen: seq<Payload> ::
                 Rows(seen + f'.queue) == Rows(seen + f.queue) + (if p.Audit? then [p] else [])
  {
    RowsNext(f.queue, p);
    forall seen: seq<Payload>
      ensures Rows(seen + (f.queue + [p])) == Rows(seen + f.queue) + (if p.Audit? then [p] else [])
    {
      assert seen + (f.queue + [p]) == (seen + f.queue) + [p];
      RowsNext(seen + f.queue, p);
    }
  }

  lemma WriteKeeps(f: Feed, op: Op)
    requires Inv(f) && op.WriteRow?
    ensures Inv(Next(f, op))
  {
    hide Filter, AsAudit;
    var f' := Next(f, op);
    if !f.writing {
      assert forall a, b :: 0 <= a <= b <= |f.log| ==> f'.log[a..b] == f.log[a..b];
    }
  }

  lemma BroadcastKeeps(f: Feed, op: Op)
    requires Inv(f) && (op.BroadcastRow? || op.BroadcastStatus?)
    ensures Inv(Next(f, op))
  {
    hide Filter, AsAudit, Offered;
    if Listening(f) && |f.queue| < CAPACITY {
      if op.BroadcastStatus? {
        DeliverRows(f, op.p);
      } else if f.writing {
        DeliverRows(f, Audit(f.log[|f.log| - 1]));
        AsAuditNext(f.log, f.from, |f.log| - 1);
      }
      assert forall ps: seq<Payload> :: ps + [] == ps;
    }
  }

  lemma SubscribeKeeps(f: Feed, op: Op)
    requires Inv(f) && (op.Subscribe? || op.Disconnect?)
    ensures Inv(Next(f, op))
  {
    hide Filter;
    var f' := Next(f, op);
    assert op.Subscribe? && f.phase.Connecting? ==> f'.log[f'.from..Published(f')] == [];
    NoRows();
    assert AsAudit([]) == [];
  }

  lemma ReplayKeeps(f: Feed, op: Op)
    requires Inv(f) && op.Replay?
    ensures Inv(Next(f, op))
  {
    hide Filter;
    var f' := Next(f, op);
    assert [] + f.queue == f.queue;
    assert f'.phase.Live? && f.phase.Subscribed? ==> f'.sent[f'.replayed..] == [] && f'.log[..f'.replayed] == f.log;
  }

  lemma ReceiveKeeps(f: Feed, op: Op)
    requires Inv(f) && op.Receive?
    ensures Inv(Next(f, op))
  {
    hide Filter, AsAudit;
    var f' := Next(f, op);
    if f.phase.Live? && f.queue != [] {
      assert f'.sent[..f'.replayed] == f.sent[..f.replayed];
      assert f'.sent[f.replayed..] + f'.queue == f.sent[f.replayed..] + f.queue;
    }
  }

  lemma NextKeeps(f: Feed, op: Op)
    requires Inv(f)
    ensures Inv(Next(f, op))
  {
    hide Inv, Next;
    match op {
      case WriteRow(_) => WriteKeeps(f, op);
      case BroadcastRow => BroadcastKeeps(f, op);
      case BroadcastStatus(_) => BroadcastKeeps(f, op);
      case Replay => ReplayKeeps(f, op);
      case Receive => ReceiveKeeps(f, op);
      case _ => SubscribeKeeps(f, op);
    }
  }

  lemma NoRows()
    ensures Rows([]) == []
  {
  }

  lemma {:induction false} ReachKeeps(f: Feed, ops: seq<Op>)
    requires Inv(f)
    ensures Inv(Reach(f, ops))
    decreases |ops|
  {
    hide Inv, Next;
    if ops != [] {
      ReachKeeps(f, ops[..|ops| - 1]);
      NextKeeps(Reach(f, ops[..|ops| - 1]), ops[|ops| - 1]);
    }
  }

  /** The stream has no gap: whatever the interleaving of appends, broadcasts and
      the client's own steps, a live client whose queue never overflowed was sent
      the log as it stood at the replay, and then, live or still queued, every row
      from some row on that the replay already covered - in log order. */
  lemma StreamHasNoGap(log: seq<Entry>, ops: seq<Op>)
    requires Reach(Opened(log), ops).phase.Live? && !Reach(Opened(log), ops).dropped
    ensures var f := Reach(Opened(log), ops);
            && f.from <= f.replayed <= |f.sent| && f.replayed <= Published(f)
            && f.sent[..f.replayed] == AsAudit(f.log[..f.replayed])
            && Rows(f.sent[f.replayed..] + f.queue) == AsAudit(f.log[f.from..Published(f)])
  {
    ReachKeeps(Opened(log), ops);
    hide Reach, Rows;
  }

  lemma {:induction false} AllAudit(rows: seq<Entry>)
    ensures Rows(AsAudit(rows)) == AsAudit(rows)
  {
    FilterAll(AsAudit(rows), IsAudit);
  }

  /** Once the queue is drained, every broadcast row has arrived, and exactly the
      rows appended between subscribing and replaying have arrived twice. */
  lemma RowsArriveOnceOrTwice(log: seq<Entry>, ops: seq<Op>)
    requires Reach(Opened(log), ops).phase.Live? && !Reach(Opened(log), ops).dropped
             && Reach(Opened(log), ops).queue == []
    ensures var f := Reach(Opened(log), ops);
            && f.from <= f.replayed <= Published(f)
            && multiset(Rows(f.sent)) ==
               multiset(AsAudit(f.log[..Published(f)])) + multiset(AsAudit(f.log[f.from..f.replayed]))
  {
    hide Reach, Rows;
    StreamHasNoGap(log, ops);
    var f := Reach(Opened(log), ops);
    var n, p := f.replayed, Published(f);
    assert f.sent == f.sent[..n] + f.sent[n..] && f.sent[n..] + [] == f.sent[n..];
    RowsConcat(f.sent[..n], f.sent[n..]);
    AllAudit(f.log[..n]);
    OverlapTwice(f.log, f.from, n, p);
  }

  lemma RowsConcat(a: seq<Payload>, b: seq<Payload>)
    ensures Rows(a + b) == Rows(a) + Rows(b)
  {
    FilterConcat(a, b, IsAudit);
  }

  lemma AsAuditParts(log: seq<Entry>, a: nat, b: nat, d: nat)
    requires a <= b <= d <= |log|
    ensures AsAudit(log[a..d]) == AsAudit(log[a..b]) + AsAudit(log[b..d])
  {
  }

  lemma OverlapTwice(log: seq<Entry>, k: nat, n: nat, p: nat)
    requires k <= n <= p <= |log|
    ensures multiset(AsAudit(log[..n]) + AsAudit(log[k..p]))
            == multiset(AsAudit(log[..p])) + multiset(AsAudit(log[k..n]))
  {
    AsAuditParts(log, k, n, p);
    AsAuditParts(log, 0, n, p);
    assert log[0..n] == log[..n] && log[0..p] == log[..p];
    hide AsAudit;
    var a, b, c := AsAudit(log[..n]), AsAudit(log[k..n]), AsAudit(log[n..p]);
    assert multiset(a + (b + c)) == multiset(a) + multiset(b) + multiset(c);
    assert multiset(a + c) == multiset(a) + multiset(c);
  }

  // ---------- the handler is the client ----------

  /** The handler of one connection, with what it has written to the client. */
  class EventHandler {
    var ch: Channel?
    var sent: seq<Payload>

    constructor ()
      ensures ch == null && sent == []
    {
      ch, sent := null, [];
    }

    /** The hub and this handler are in the state `f`. */
    ghost predicate Shows(hub: StreamHub, f: Feed)
      reads this, hub, hub.clients, ch
    {
      && hub.Valid() && sent == f.sent && (ch == null <==> f.phase.Connecting?)
      && (ch == null ==> f.queue == [])
      && (ch != null ==> ch.queue == f.queue && (ch in hub.clients <==> Listening(f)))
    }

    /** Each operation is one step of the feed: connecting subscribes, ... */
    method Connect(hub: StreamHub, ghost f: Feed)
      requires Shows(hub, f) && f.phase.Connecting?
      modifies this, hub
      ensures Shows(hub, Next(f, Subscribe))
    {
      ch := hub.Subscribe();
    }

    /** ... writing out the log the store returns is the replay, ... */
    method ReplayEntries(hub: StreamHub, entries: seq<Entry>, ghost f: Feed)
      requires Shows(hub, f) && f.phase.Subscribed? && !f.writing && f.sent == [] && entries == f.log
      modifies this`sent
      ensures Shows(hub, Next(f, Replay))
    {
      for i := 0 to |entries|
        invariant sent == AsAudit(entries[..i])
      {
        AsAuditNext(entries, 0, i);
        assert entries[0..i] == entries[..i] && entries[0..i + 1] == entries[..i + 1];
        sent := sent + [Audit(entries[i])];
      }
      assert entries[..|entries|] == entries;
    }

    /** ... a receive from the channel is the receive step, ... */
    method FollowOne(hub: StreamHub, ghost f: Feed)
      requires Shows(hub, f) && f.phase.Live? && ch != null && ch.queue != []
      modifies this`sent, ch
      ensures Shows(hub, Next(f, Receive))
    {
      var p := ch.Receive();
      sent := sent + [p];
    }

    /** ... and the deferred unsubscribe disconnects. */
    method Leave(hub: StreamHub, ghost f: Feed)
      requires Shows(hub, f) && Listening(f) && ch != null
      modifies hub, ch
      ensures Shows(hub, Next(f, Disconnect))
    {
      hub.Unsubscribe(ch);
    }
  }

  /** Broadcasting the row just written, or a status, is the feed's delivery,
      whether the client listens, has left, or its queue is full. */
  method BroadcastIsDelivery(hub: StreamHub, handler: EventHandler, payload: Payload, ghost f: Feed)
    requires handler.Shows(hub, f)
    requires payload.Audit? ==> f.writing && f.log != [] && payload == Audit(f.log[|f.log| - 1])
    modifies hub.clients
    ensures handler.Shows(hub, Next(f, if payload.Audit? then BroadcastRow else BroadcastStatus(payload)))
  {
    hub.BroadcastBytes(payload);
  }
}
