/**
 * The action event relay of ActionBroadcastReceiver: the `ActionEventSink`
 * stream handler that buffers tap events until a Dart subscriber listens,
 * then replays them in order and forwards later ones directly.
 *
 * The pure functions Publish, Attach and Detach specify its three
 * operations on a value `Relay`; the class ActionEventSink implements them
 * over fields that its methods update in place.
 */
module ActionEventRelay {
  import opened Common

  /** A boxed Java value stored in a notification-response map. */
  datatype Value = IntValue(i: int) | StringValue(s: string) | BoolValue(b: bool) | OtherValue

  /** The notification-response map published for one tap. */
  type ActionEvent = map<string, Value>

  /** An opaque Flutter `EventSink`, the subscriber of the event stream. */
  datatype Subscriber = Subscriber(handle: nat)

  /** One `success(event)` call made on a subscriber. */
  datatype Delivery = Delivery(to: Subscriber, event: ActionEvent)

  /**
   * The relay's observable state: the buffered events (`cache`), the
   * attached subscriber (`eventSink`), and every delivery made so far.
   */
  datatype Relay = Relay(cache: seq<ActionEvent>, sink: Option<Subscriber>, deliveries: seq<Delivery>)

  /** A newly constructed sink: nothing buffered, nobody listening. */
  const Fresh: Relay := Relay([], None, [])

  /** The relay invariant: while a subscriber is attached nothing is held back. */
  predicate Consistent(r: Relay) {
    r.sink.Some? ==> r.cache == []
  }

  /** The events carried by a sequence of deliveries, in delivery order. */
  function Events(ds: seq<Delivery>): seq<ActionEvent> {
    seq(|ds|, i requires 0 <= i < |ds| => ds[i].event)
  }

  /** Delivering each of `items`, in order, to `s`. */
  function DeliverAll(s: Subscriber, items: seq<ActionEvent>): seq<Delivery> {
    seq(|items|, i requires 0 <= i < |items| => Delivery(s, items[i]))
  }

  /** `addItem`: forward to the attached subscriber, or append to the cache. */
  function Publish(r: Relay, item: ActionEvent): Relay {
    if r.sink.Some? then r.(deliveries := r.deliveries + [Delivery(r.sink.value, item)])
    else r.(cache := r.cache + [item])
  }

  /** `onListen`: replay the cache to `s` in order, clear it, record `s`. */
  function Attach(r: Relay, s: Subscriber): Relay {
    Relay([], Some(s), r.deliveries + DeliverAll(s, r.cache))
  }

  /** `onCancel`: forget the subscriber; buffering resumes. */
  function Detach(r: Relay): Relay {
    r.(sink := None)
  }

  /** One call on the relay. */
  datatype RelayOp = Add(item: ActionEvent) | Listen(subscriber: Subscriber) | Cancel

  function Step(r: Relay, op: RelayOp): Relay {
    match op
    case Add(item) => Publish(r, item)
    case Listen(s) => Attach(r, s)
    case Cancel => Detach(r)
  }

  /** The relay after the calls `ops`, made in order from `r`. */
  function Run(r: Relay, ops: seq<RelayOp>): Relay
    decreases |ops|
  {
    if ops == [] then r else Run(Step(r, ops[0]), ops[1..])
  }

  /** The item one call passes to `addItem`, if it is that call. */
  function PublishedBy(op: RelayOp): seq<ActionEvent> {
    if op.Add? then [op.item] else []
  }

  /** The items passed to `addItem` by `ops`, in call order. */
  function Published(ops: seq<RelayOp>): seq<ActionEvent>
    decreases |ops|
  {
    if ops == [] then [] else PublishedBy(ops[0]) + Published(ops[1..])
  }

  /** Everything delivered so far followed by everything still buffered. */
  function Flow(r: Relay): seq<ActionEvent> {
    Events(r.deliveries) + r.cache
  }

  /** `addItem` called once for each of `items`, in order. */
  function Adds(items: seq<ActionEvent>): seq<RelayOp> {
    seq(|items|, i requires 0 <= i < |items| => Add(items[i]))
  }

  lemma EventsAppend(a: seq<Delivery>, b: seq<Delivery>)
    ensures Events(a + b) == Events(a) + Events(b)
  {
    assert forall i | 0 <= i < |a + b| :: Events(a + b)[i] == (Events(a) + Events(b))[i];
  }

  lemma EventsDeliverAll(s: Subscriber, items: seq<ActionEvent>)
    ensures Events(DeliverAll(s, items)) == items
  {
  }

  /**
   * One call keeps the relay invariant and conserves events: what has been
   * delivered followed by what is buffered grows by exactly the published
   * item, at the tail.
   */
  lemma StepConserves(r: Relay, op: RelayOp)
    requires Consistent(r)
    ensures Consistent(Step(r, op))
    ensures Flow(Step(r, op)) == Flow(r) + PublishedBy(op)
  {
    match op
    case Add(item) =>
      if r.sink.Some? {
        EventsAppend(r.deliveries, [Delivery(r.sink.value, item)]);
      }
    case Listen(s) =>
      EventsAppend(r.deliveries, DeliverAll(s, r.cache));
      EventsDeliverAll(s, r.cache);
    case Cancel =>
  }

  /**
   * Over any sequence of addItem/onListen/onCancel calls the invariant holds
   * and no event is lost, duplicated or reordered: deliveries followed by the
   * cache always equal all published items in arrival order.
   */
  lemma {:induction false} RunConserves(r: Relay, ops: seq<RelayOp>)
    requires Consistent(r)
    ensures Consistent(Run(r, ops))
    ensures Flow(Run(r, ops)) == Flow(r) + Published(ops)
    decreases |ops|
  {
    if ops == [] {
      assert Flow(r) + Published(ops) == Flow(r);
    } else {
      var next, rest := Step(r, ops[0]), ops[1..];
      var last := Run(next, rest);
      assert Run(r, ops) == last;
      StepConserves(r, ops[0]);
      RunConserves(next, rest);
      assert Published(ops) == PublishedBy(ops[0]) + Published(rest);
      assert Flow(last) == Flow(r) + PublishedBy(ops[0]) + Published(rest);
    }
  }

  /** Running two call sequences one after the other. */
  lemma {:induction false} RunAppend(r: Relay, a: seq<RelayOp>, b: seq<RelayOp>)
    ensures Run(r, a + b) == Run(Run(r, a), b)
    decreases |a|
  {
    if a == [] {
      assert a + b == b;
    } else {
      assert (a + b)[0] == a[0];
      assert (a + b)[1..] == a[1..] + b;
      RunAppend(Step(r, a[0]), a[1..], b);
    }
  }

  /** With no subscriber, each published item is appended to the cache tail. */
  lemma {:induction false} BufferWhileDetached(r: Relay, items: seq<ActionEvent>)
    requires r.sink.None?
    ensures Run(r, Adds(items)) == r.(cache := r.cache + items)
    decreases |items|
  {
    if items == [] {
      assert r.cache + items == r.cache;
    } else {
      assert Adds(items)[1..] == Adds(items[1..]);
      BufferWhileDetached(Publish(r, items[0]), items[1..]);
      assert r.cache + [items[0]] + items[1..] == r.cache + items;
    }
  }

  /**
   * With a subscriber attached, each published item is delivered to it at
   * once and the cache stays empty.
   */
  lemma {:induction false} DeliverWhileAttached(r: Relay, items: seq<ActionEvent>)
    requires r.sink.Some? && r.cache == []
    ensures Run(r, Adds(items)) == r.(deliveries := r.deliveries + DeliverAll(r.sink.value, items))
    decreases |items|
  {
    var s := r.sink.value;
    if items == [] {
      assert r.deliveries + DeliverAll(s, items) == r.deliveries;
    } else {
      assert Adds(items)[1..] == Adds(items[1..]);
      DeliverWhileAttached(Publish(r, items[0]), items[1..]);
      assert [Delivery(s, items[0])] + DeliverAll(s, items[1..]) == DeliverAll(s, items);
    }
  }

  /**
   * Events published while nobody listens are delivered to the next
   * subscriber exactly once, in arrival order, after those already cached;
   * afterwards the cache is empty and the subscriber is recorded.
   */
  lemma AttachReplaysBuffered(r: Relay, items: seq<ActionEvent>, s: Subscriber)
    requires r.sink.None?
    ensures Run(r, Adds(items) + [Listen(s)])
         == Relay([], Some(s), r.deliveries + DeliverAll(s, r.cache + items))
  {
    RunAppend(r, Adds(items), [Listen(s)]);
    BufferWhileDetached(r, items);
    assert [Listen(s)][1..] == [];
  }

  /**
   * From a fresh sink, across any attach/cancel cycles, the concatenation of
   * all deliveries followed by the cache is exactly the sequence of published
   * items; while someone listens, the deliveries alone are.
   */
  lemma NoLossNoDuplication(ops: seq<RelayOp>)
    ensures Events(Run(Fresh, ops).deliveries) + Run(Fresh, ops).cache == Published(ops)
    ensures Run(Fresh, ops).sink.Some? ==> Events(Run(Fresh, ops).deliveries) == Published(ops)
  {
    RunConserves(Fresh, ops);
    assert Flow(Fresh) == [];
  }

  /** After `onCancel`, `addItem` buffers again and delivers nothing. */
  lemma DetachResumesBuffering(r: Relay, item: ActionEvent)
    ensures Publish(Detach(r), item).cache == r.cache + [item]
    ensures Publish(Detach(r), item).deliveries == r.deliveries
  {
  }

  /**
   * The `StreamHandler` registered on the actions channel. `cache`,
   * `eventSink` and `deliveries` are its state; `published` records every
   * item ever passed to `addItem`.
   */
  class ActionEventSink {
    var cache: seq<ActionEvent>
    var eventSink: Option<Subscriber>
    var deliveries: seq<Delivery>
    ghost var published: seq<ActionEvent>

    function State(): Relay
      reads this
    {
      Relay(cache, eventSink, deliveries)
    }

    ghost predicate Valid()
      reads this
    {
      Consistent(State()) && Flow(State()) == published
    }

    constructor ()
      ensures Valid() && State() == Fresh && published == []
    {
      cache := [];
      eventSink := None;
      deliveries := [];
      published := [];
    }

    method AddItem(item: ActionEvent)
      requires Valid()
      modifies this
      ensures Valid() && State() == Publish(old(State()), item)
      ensures published == old(published) + [item]
    {
      if eventSink.Some? {
        deliveries := deliveries + [Delivery(eventSink.value, item)];
      } else {
        cache := cache + [item];
      }
      published := published + [item];
      StepConserves(old(State()), Add(item));
    }

    method OnListen(events: Subscriber)
      requires Valid()
      modifies this
      ensures Valid() && State() == Attach(old(State()), events)
      ensures published == old(published)
    {
      var i := 0;
      while i < |cache|
        invariant 0 <= i <= |cache|
        invariant cache == old(cache) && eventSink == old(eventSink) && published == old(published)
        invariant deliveries == old(deliveries) + DeliverAll(events, cache[..i])
      {
        assert DeliverAll(events, cache[..i + 1]) == DeliverAll(events, cache[..i]) + [Delivery(events, cache[i])];
        deliveries := deliveries + [Delivery(events, cache[i])];
        i := i + 1;
      }
      assert cache[..i] == cache;
      cache := [];
      eventSink := Some(events);
      StepConserves(old(State()), Listen(events));
    }

    method OnCancel()
      requires Valid()
      modifies this
      ensures Valid() && State() == Detach(old(State()))
      ensures published == old(published)
    {
      eventSink := None;
    }
  }
}
