/** Values shared by every component of the model: an optional value (the
    source's nullable references), 2D vectors, and the subscriber registry's
    delivery record, which is how a broadcast to an ordered subscriber list is
    observed. */
module Common {

  datatype Option<T> = None | Some(value: T) {
    /** The zero or one values held, as a sequence. */
    function ToSeq(): (r: seq<T>)
      ensures |r| == (if Some? then 1 else 0)
      ensures Some? ==> r[0] == value
    {
      if Some? then [value] else []
    }
  }

  /** Unity's Vector2, with real coordinates (floating-point rounding is not modelled). */
  datatype Vector2 = Vector2(x: real, y: real)

  /** Vector2.left, Vector2.right and Vector2.up. */
  const Left: Vector2 := Vector2(-1.0, 0.0)
  const Right: Vector2 := Vector2(1.0, 0.0)
  const Up: Vector2 := Vector2(0.0, 1.0)

  /** A subscriber is identified by its position-independent handle. */
  type SubscriberId = nat

  /** One notification call `subscriber.Notify...(...)` made by an emitter. */
  datatype Delivery<E> = Delivery(subscriber: SubscriberId, event: E)

  /** The notifications a `foreach (subscriber in Subscribers) subscriber.Notify(event)`
      loop issues: one per subscriber, in subscription order. */
  function Broadcast<E>(subscribers: seq<SubscriberId>, event: E): (r: seq<Delivery<E>>)
    ensures |r| == |subscribers|
    ensures forall i :: 0 <= i < |r| ==> r[i] == Delivery(subscribers[i], event)
    decreases |subscribers|
  {
    if subscribers == [] then []
    else
      var n := |subscribers| - 1;
      Broadcast(subscribers[..n], event) + [Delivery(subscribers[n], event)]
  }

  /** Extending the subscriber prefix by one extends the broadcast by that subscriber's
      notification (the step a notification loop takes). */
  lemma BroadcastSnoc<E>(subscribers: seq<SubscriberId>, i: nat, event: E)
    requires i < |subscribers|
    ensures Broadcast(subscribers[..i + 1], event) == Broadcast(subscribers[..i], event) + [Delivery(subscribers[i], event)]
  {
    assert subscribers[..i + 1][..i] == subscribers[..i];
  }

  /** Each subscriber receives the event exactly as many times as it is subscribed,
      so a subscriber registered once is notified exactly once. */
  lemma {:induction false} BroadcastCounts<E>(subscribers: seq<SubscriberId>, event: E, s: SubscriberId)
    ensures multiset(Broadcast(subscribers, event))[Delivery(s, event)] == multiset(subscribers)[s]
    decreases |subscribers|
  {
    if subscribers != [] {
      var n := |subscribers| - 1;
      BroadcastCounts(subscribers[..n], event, s);
      assert subscribers == subscribers[..n] + [subscribers[n]];
    }
  }
}
