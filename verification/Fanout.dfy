/** The gateway's fan-out of the audit stream to its circuits: a bounded buffer and
    a subscriber table under one lock (gateway-ui/Services/AuditStreamService.cs). */
module Fanout {

  const MAX_BUFFERED := 500

  /** The last `n` elements. */
  function LastOf<T>(s: seq<T>, n: nat): seq<T> {
    if |s| <= n then s else s[|s| - n..]
  }

  /** A circuit's handler, with what it has been given. */
  class Handler<T> {
    var seen: seq<T>

    constructor ()
      ensures seen == []
    {
      seen := [];
    }

    method Handle(e: T)
      modifies this
      ensures seen == old(seen) + [e]
    {
      seen := seen + [e];
    }
  }

  class AuditStreamService<T> {
    var subscribers: map<nat, Handler<T>>
    var nextId: nat
    var buffer: seq<T>
    /** Everything published so far. */
    ghost var published: seq<T>

    ghost predicate Valid()
      reads this
    {
      && buffer == LastOf(published, 500)
      && (forall id :: id in subscribers ==> id < nextId)
    }

    constructor ()
      ensures Valid() && published == [] && subscribers == map[]
    {
      subscribers, nextId, buffer, published := map[], 0, [], [];
    }

    /** A new subscriber gets a fresh id and the buffered history, in order. */
    method Subscribe(handler: Handler<T>) returns (id: nat)
      requires Valid()
      modifies this, handler
      ensures Valid() && published == old(published) && buffer == old(buffer)
      ensures id !in old(subscribers) && subscribers == old(subscribers)[id := handler] && nextId == old(nextId) + 1
      ensures handler.seen == old(handler.seen) + LastOf(published, 500)
    {
      id := nextId;
      nextId := nextId + 1;
      subscribers := subscribers[id := handler];
      for i := 0 to |buffer|
        invariant Valid() && published == old(published) && buffer == old(buffer)
        invariant subscribers == old(subscribers)[id := handler] && nextId == old(nextId) + 1
        invariant handler.seen == old(handler.seen) + buffer[..i]
      {
        handler.Handle(buffer[i]);
        assert buffer[..i + 1] == buffer[..i] + [buffer[i]];
      }
      assert buffer[..|buffer|] == buffer;
    }

    method Unsubscribe(id: nat)
      requires Valid()
      modifies this
      ensures Valid() && published == old(published) && nextId == old(nextId)
      ensures subscribers == old(subscribers) - {id}
    {
      subscribers := subscribers - {id};
    }

    /** The locked part of `Publish`: remember the event, trim the buffer, and
        snapshot the handlers to call, one entry per subscription. */
    method Enqueue(e: T) returns (snap: seq<Handler<T>>)
      requires Valid()
      modifies this
      ensures Valid() && published == old(published) + [e]
      ensures subscribers == old(subscribers) && nextId == old(nextId)
      ensures forall h :: multiset(snap)[h] == |Subscriptions(subscribers, h)|
    {
      buffer := buffer + [e];
      published := published + [e];
      while |buffer| > MAX_BUFFERED
        invariant MAX_BUFFERED <= |buffer| || buffer == published
        invariant |buffer| <= |published| && buffer == published[|published| - |buffer|..]
        invariant subscribers == old(subscribers) && nextId == old(nextId) && published == old(published) + [e]
      {
        buffer := buffer[1..];
      }
      snap := Values(subscribers);
    }

    /** The unlocked part: call each handler of the snapshot. */
    method Notify(snap: seq<Handler<T>>, e: T)
      modifies set h | h in snap
      ensures forall h :: h in snap ==> h.seen == old(h.seen) + Times(e, multiset(snap)[h])
    {
      for i := 0 to |snap|
        invariant forall h :: h in snap ==> h.seen == old(h.seen) + Times(e, multiset(snap[..i])[h])
      {
        assert snap[..i + 1] == snap[..i] + [snap[i]];
        snap[i].Handle(e);
      }
      assert snap[..|snap|] == snap;
    }

    /** With nothing in between, every handler gets exactly the new event, once per
        subscription. */
    method Publish(e: T)
      requires Valid()
      modifies this, subscribers.Values
      ensures Valid() && published == old(published) + [e]
      ensures subscribers == old(subscribers) && nextId == old(nextId)
      ensures forall h :: h in subscribers.Values ==> h.seen == old(h.seen) + Times(e, |Subscriptions(subscribers, h)|)
    {
      var snap := Enqueue(e);
      SnapshotHasSubscribers(snap, subscribers);
      Notify(snap, e);
    }
  }

  /** The subscriptions a handler has. */
  function Subscriptions<T>(subscribers: map<nat, Handler<T>>, h: Handler<T>): set<nat> {
    set id | id in subscribers && subscribers[id] == h
  }

  function Times<T>(e: T, n: nat): (s: seq<T>)
    ensures |s| == n && forall i :: 0 <= i < n ==> s[i] == e
  {
    seq(n, i => e)
  }

  lemma SnapshotHasSubscribers<T>(snap: seq<Handler<T>>, subscribers: map<nat, Handler<T>>)
    requires forall h :: multiset(snap)[h] == |Subscriptions(subscribers, h)|
    ensures forall h :: h in snap <==> h in subscribers.Values
  {
    forall h ensures h in snap <==> h in subscribers.Values {
      assert h in snap <==> Subscriptions(subscribers, h) != {};
      if h in subscribers.Values {
        var id :| id in subscribers && subscribers[id] == h;
        assert id in Subscriptions(subscribers, h);
      } else {
        assert Subscriptions(subscribers, h) == {};
      }
    }
  }

  /** The values of the table, one entry per key, in any order. */
  method Values<T>(subscribers: map<nat, Handler<T>>) returns (snap: seq<Handler<T>>)
    ensures forall h :: multiset(snap)[h] == |Subscriptions(subscribers, h)|
  {
    snap := [];
    var rest := subscribers;
    while rest != map[]
      invariant rest.Keys <= subscribers.Keys && forall id :: id in rest ==> rest[id] == subscribers[id]
      invariant forall h :: multiset(snap)[h] + |Subscriptions(rest, h)| == |Subscriptions(subscribers, h)|
      decreases |rest|
    {
      var id :| id in rest;
      forall h { WithoutOne(rest, id, h); }
      snap := snap + [rest[id]];
      rest := rest - {id};
    }
    assert forall h: Handler<T> :: Subscriptions(rest, h) == {};
  }

  lemma WithoutOne<T>(rest: map<nat, Handler<T>>, id: nat, h: Handler<T>)
    requires id in rest
    ensures |Subscriptions(rest, h)| == |Subscriptions(rest - {id}, h)| + (if rest[id] == h then 1 else 0)
  {
    var after := Subscriptions(rest - {id}, h);
    if rest[id] == h {
      assert Subscriptions(rest, h) == after + {id};
    } else {
      assert Subscriptions(rest, h) == after;
    }
  }

  // ---------- interleavings ----------

  /** One subscriber among many, and the single publisher loop. `notifying` is the
      event whose handlers are being called outside the lock, and whether this
      subscriber was in its snapshot and is still to be called. */
  datatype Hub<T> = Hub(
    buffer: seq<T>, published: seq<T>, busy: bool, pending: bool,
    joined: bool, left: bool, joinedAt: nat, leftAt: nat, seen: seq<T>)

  datatype Op<T> = Lock(e: T) | Call | Finish | Join | Leave

  function Fresh<T>(): Hub<T> {
    Hub([], [], false, false, false, false, 0, 0, [])
  }

  /** One atomic operation; one that is not possible changes nothing. The publisher
      takes the lock for the next event only after all handlers of the last one
      were called. */
  function Next<T>(h: Hub<T>, op: Op<T>): Hub<T> {
    match op
    case Lock(e) =>
      if h.busy then h
      else h.(buffer := LastOf(h.buffer + [e], MAX_BUFFERED), published := h.published + [e],
              busy := true, pending := h.joined && !h.left)
    case Call =>
      if h.busy && h.pending && h.published != []
      then h.(seen := h.seen + [h.published[|h.published| - 1]], pending := false) else h
    case Finish => if h.busy && !h.pending then h.(busy := false) else h
    case Join => if h.joined then h else h.(joined := true, joinedAt := |h.published|, seen := h.buffer)
    case Leave => if h.joined && !h.left then h.(left := true, leftAt := |h.published|) else h
  }

  function Reach<T>(ops: seq<Op<T>>): Hub<T>
    decreases |ops|
  {
    if ops == [] then Fresh() else Next(Reach(ops[..|ops| - 1]), ops[|ops| - 1])
  }

  /** The last event this subscriber is entitled to. */
  function Until<T>(h: Hub<T>): nat { if h.left then h.leftAt else |h.published| }

  /** What the subscriber has seen: the buffered history, then every event since. */
  function Entitled<T>(h: Hub<T>): seq<T>
    requires h.joinedAt <= Until(h) <= |h.published|
  {
    LastOf(h.published[..h.joinedAt], 500) + h.published[h.joinedAt..Until(h)]
  }

  predicate Inv<T(==)>(h: Hub<T>) {
    && h.buffer == LastOf(h.published, MAX_BUFFERED)
    && (h.busy ==> h.published != [])
    && (h.pending ==> h.busy && h.joined)
    && (!h.joined ==> !h.left)
    && (h.joined ==> h.joinedAt <= Until(h) <= |h.published|
                     && (h.pending ==> h.joinedAt < |h.published| == Until(h))
                     && h.seen + (if h.pending then [h.published[|h.published| - 1]] else []) == Entitled(h))
  }

  lemma LastOfNext<T>(s: seq<T>, e: T)
    ensures LastOf(LastOf(s, MAX_BUFFERED) + [e], MAX_BUFFERED) == LastOf(s + [e], MAX_BUFFERED)
  {
  }

  lemma EntitledNext<T>(h: Hub<T>, e: T)
    requires h.joined && h.joinedAt <= Until(h) <= |h.published|
    ensures var h' := h.(published := h.published + [e]);
            Entitled(h') == Entitled(h) + (if h.left then [] else [e])
  {
    var h' := h.(published := h.published + [e]);
    assert h'.published[..h.joinedAt] == h.published[..h.joinedAt];
    if h.left {
      assert h'.published[h.joinedAt..h.leftAt] == h.published[h.joinedAt..h.leftAt];
    } else {
      assert h'.published[h.joinedAt..|h'.published|] == h.published[h.joinedAt..|h.published|] + [e];
    }
  }

  lemma NextKeeps<T>(h: Hub<T>, op: Op<T>)
    requires Inv(h)
    ensures Inv(Next(h, op))
  {
    match op {
      case Lock(e) =>
        LastOfNext(h.published, e);
        if h.joined {
          EntitledNext(h, e);
        }
      case Join =>
        assert h.published[..|h.published|] == h.published && h.published[|h.published|..] == [];
      case _ =>
    }
  }

  lemma {:induction false} ReachKeeps<T>(ops: seq<Op<T>>)
    ensures Inv(Reach(ops))
    decreases |ops|
  {
    hide Inv, Next;
    if ops == [] {
      FreshIsFine<T>();
    } else {
      ReachKeeps(ops[..|ops| - 1]);
      NextKeeps(Reach(ops[..|ops| - 1]), ops[|ops| - 1]);
    }
  }

  lemma FreshIsFine<T>()
    ensures Inv(Fresh<T>())
  {
  }

  /** The fan-out is exact: for any interleaving of joining and leaving with the
      publisher loop, a subscriber has seen the last 500 events published before it
      joined and then every later event until it left, in order, without a gap or a
      duplicate - except the one event whose handlers are still being called. */
  lemma FanoutIsExact<T>(ops: seq<Op<T>>)
    requires Reach(ops).joined
    ensures var h := Reach(ops);
            && h.joinedAt <= Until(h) <= |h.published|
            && (!h.pending ==> h.seen == Entitled(h))
            && (h.pending ==> h.published != [] && h.seen + [h.published[|h.published| - 1]] == Entitled(h))
  {
    ReachKeeps(ops);
    var h := Reach(ops);
    hide Reach;
    assert h.seen + [] == h.seen;
  }

  // ---------- the service is the hub ----------

  /** The service, with one handler and its subscription `id`, is in the state `h`. */
  ghost predicate Shows<T>(service: AuditStreamService<T>, handler: Handler<T>, id: nat, h: Hub<T>)
    reads service, handler
  {
    && service.Valid() && h.buffer == service.buffer && h.published == service.published && h.seen == handler.seen
    && (h.joined && !h.left <==> id in service.subscribers && service.subscribers[id] == handler)
    && (forall other :: other in service.subscribers && service.subscribers[other] == handler ==> other == id)
    && (h.joined ==> id < service.nextId) && (h.left ==> h.joined) && (h.pending ==> h.busy)
  }

  /** Each operation of the service is one step of the hub: subscribing joins, ... */
  method SubscribeIsJoin<T>(service: AuditStreamService<T>, handler: Handler<T>, ghost h: Hub<T>) returns (id: nat)
    requires Shows(service, handler, service.nextId, h) && !h.joined && handler.seen == []
    modifies service, handler
    ensures Shows(service, handler, id, Next(h, Join))
  {
    id := service.Subscribe(handler);
    assert [] + LastOf(service.published, MAX_BUFFERED) == service.buffer;
  }

  /** ... unsubscribing leaves, ... */
  method UnsubscribeIsLeave<T>(service: AuditStreamService<T>, handler: Handler<T>, id: nat, ghost h: Hub<T>)
    requires Shows(service, handler, id, h) && h.joined && !h.left
    modifies service
    ensures Shows(service, handler, id, Next(h, Leave))
  {
    service.Unsubscribe(id);
  }

  /** ... the locked part of publishing is the lock step, whose snapshot holds the
      handler exactly when its call is pending, ... */
  method EnqueueIsLock<T>(service: AuditStreamService<T>, handler: Handler<T>, id: nat, e: T, ghost h: Hub<T>)
    returns (snap: seq<Handler<T>>)
    requires Shows(service, handler, id, h) && !h.busy
    modifies service
    ensures Shows(service, handler, id, Next(h, Lock(e)))
    ensures multiset(snap)[handler] == if Next(h, Lock(e)).pending then 1 else 0
  {
    LastOfNext(service.published, e);
    snap := service.Enqueue(e);
    OneSubscription(service.subscribers, handler, id);
  }

  lemma OneSubscription<T>(subscribers: map<nat, Handler<T>>, handler: Handler<T>, id: nat)
    requires forall other :: other in subscribers && subscribers[other] == handler ==> other == id
    ensures |Subscriptions(subscribers, handler)| == if id in subscribers && subscribers[id] == handler then 1 else 0
  {
    if id in subscribers && subscribers[id] == handler {
      assert Subscriptions(subscribers, handler) == {id};
    } else {
      assert Subscriptions(subscribers, handler) == {};
    }
  }

  /** ... calling the handler is the call step, also after it unsubscribed, ... */
  method HandleIsCall<T>(service: AuditStreamService<T>, handler: Handler<T>, id: nat, e: T, ghost h: Hub<T>)
    requires Shows(service, handler, id, h) && h.busy && h.pending
    requires h.published != [] && e == h.published[|h.published| - 1]
    modifies handler
    ensures Shows(service, handler, id, Next(h, Call))
  {
    handler.Handle(e);
  }

  /** ... and an undisturbed `Publish` is the three steps in a row. */
  method PublishIsThreeSteps<T>(service: AuditStreamService<T>, handler: Handler<T>, id: nat, e: T, ghost h: Hub<T>)
    requires Shows(service, handler, id, h) && !h.busy
    modifies service, service.subscribers.Values, handler
    ensures Shows(service, handler, id, Next(Next(Next(h, Lock(e)), Call), Finish))
  {
    LastOfNext(service.published, e);
    OneSubscription(service.subscribers, handler, id);
    service.Publish(e);
    assert Times(e, 1) == [e] && Times(e, 0) == [];
  }

  /** What the others do to their own subscriptions is no step of this one. */
  method OthersDoNotMatter<T>(service: AuditStreamService<T>, handler: Handler<T>, id: nat, other: Handler<T>,
                              leaving: nat, ghost h: Hub<T>)
    returns (otherId: nat)
    requires Shows(service, handler, id, h) && h.joined && other != handler && leaving != id
    modifies service, other
    ensures Shows(service, handler, id, h)
  {
    otherId := service.Subscribe(other);
    service.Unsubscribe(leaving);
  }
}
