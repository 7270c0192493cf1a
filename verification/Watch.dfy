/** The typed stores and their bounded watch brokers. */
module Watch {
  import opened Prelude

  const DEFAULT_BUFFER := 256

  datatype Event<+T> =
    | Added(after: T, raftIndex: nat)
    | Updated(before: T, after: T, raftIndex: nat)
    | Removed(before: T, raftIndex: nat)
    | Resync

  /** What one publish does to one subscriber's channel: nothing is lost, or the
      channel ends with a Resync. */
  function Offer<T>(queue: seq<Event<T>>, buffer: nat, e: Event<T>): (r: seq<Event<T>>)
    requires 0 < buffer && |queue| <= buffer
    ensures 0 < |r| <= buffer
    ensures r == queue + [e] || r[|r| - 1] == Resync
  {
    if |queue| < buffer then queue + [e] else queue[1..] + [Resync]
  }

  /** The event an upsert of `v` under `k` publishes. */
  function PutEvent<T>(store: map<string, T>, k: string, v: T, idx: nat): Event<T> {
    if k in store then Updated(store[k], v, idx) else Added(v, idx)
  }

  class Subscription<T> {
    var queue: seq<Event<T>>
    var closed: bool

    constructor ()
      ensures queue == [] && !closed
    {
      queue, closed := [], false;
    }
  }

  class Broker<T> {
    const buffer: nat
    var subscribers: set<Subscription<T>>

    ghost predicate Valid()
      reads this, subscribers
    {
      0 < buffer && forall s :: s in subscribers ==> !s.closed && |s.queue| <= buffer
    }

    constructor (size: int)
      ensures Valid() && subscribers == {}
      ensures buffer == if size <= 0 then DEFAULT_BUFFER else size
    {
      buffer := if size <= 0 then DEFAULT_BUFFER else size;
      subscribers := {};
    }

    method Subscribe() returns (s: Subscription<T>)
      requires Valid()
      modifies this
      ensures Valid() && fresh(s) && s.queue == [] && !s.closed
      ensures subscribers == old(subscribers) + {s}
    {
      s := new Subscription<T>();
      subscribers := subscribers + {s};
    }

    /** Idempotent: cancelling twice, or cancelling a stranger, changes nothing. */
    method Cancel(s: Subscription<T>)
      requires Valid()
      modifies this, s`closed
      ensures Valid() && subscribers == old(subscribers) - {s}
      ensures s.closed == (old(s.closed) || s in old(subscribers))
    {
      if s in subscribers {
        subscribers := subscribers - {s};
        if !s.closed {
          s.closed := true;
        }
      }
    }

    /** Fans `e` out. The three selects of the source are the three tests below;
        the Resync send always finds a free slot. */
    method Publish(e: Event<T>)
      requires Valid()
      modifies subscribers`queue
      ensures Valid() && subscribers == old(subscribers)
      ensures forall s :: s in subscribers ==> s.queue == Offer(old(s.queue), buffer, e)
    {
      var todo := subscribers;
      while todo != {}
        invariant todo <= subscribers
        invariant forall s :: s in todo ==> s.queue == old(s.queue)
        invariant forall s :: s in subscribers - todo ==> s.queue == Offer(old(s.queue), buffer, e)
        decreases todo
      {
        var s :| s in todo;
        todo := todo - {s};
        if !s.closed {
          if |s.queue| < buffer {
            s.queue := s.queue + [e];
          } else {
            if |s.queue| > 0 {
              s.queue := s.queue[1..];
            }
            if |s.queue| < buffer {
              s.queue := s.queue + [Resync];
            }
          }
        }
      }
    }
  }

  class Store<T> {
    const key: T -> string
    const broker: Broker<T>
    var byKey: map<string, T>

    ghost predicate Valid()
      reads this, broker, broker.subscribers
    {
      broker.Valid() && Filed(byKey, key)
    }

    constructor (broker: Broker<T>, key: T -> string)
      requires broker.Valid()
      ensures Valid() && byKey == map[] && this.broker == broker && this.key == key
    {
      this.broker, this.key, byKey := broker, key, map[];
    }

    method Get(k: string) returns (r: Option<T>)
      ensures r == if k in byKey then Some(byKey[k]) else None
    {
      if k in byKey {
        return Some(byKey[k]);
      }
      return None;
    }

    method Apply(v: T, idx: nat) returns (added: bool)
      requires Valid()
      modifies this`byKey, broker.subscribers`queue
      ensures Valid() && broker.subscribers == old(broker.subscribers)
      ensures byKey == old(byKey)[key(v) := v] && added == (key(v) !in old(byKey))
      ensures forall s :: s in broker.subscribers ==>
                s.queue == Offer(old(s.queue), broker.buffer, PutEvent(old(byKey), key(v), v, idx))
    {
      var k := key(v);
      var before := if k in byKey then Some(byKey[k]) else None;
      byKey := byKey[k := v];
      if before.Some? {
        broker.Publish(Updated(before.value, v, idx));
        return false;
      }
      broker.Publish(Added(v, idx));
      return true;
    }

    method Remove(k: string, idx: nat) returns (removed: bool)
      requires Valid()
      modifies this`byKey, broker.subscribers`queue
      ensures Valid() && broker.subscribers == old(broker.subscribers)
      ensures byKey == old(byKey) - {k} && removed == (k in old(byKey))
      ensures forall s :: s in broker.subscribers ==>
                s.queue == if removed then Offer(old(s.queue), broker.buffer, Removed(old(byKey)[k], idx))
                           else old(s.queue)
    {
      if k !in byKey {
        return false;
      }
      var before := byKey[k];
      byKey := byKey - {k};
      broker.Publish(Removed(before, idx));
      return true;
    }
  }
}
