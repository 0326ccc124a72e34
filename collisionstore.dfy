/**
 * The observable store of colliding block ids: the current id list, the set
 * of subscribed listeners, and notification of every listener on each write.
 */
module CollisionStore {

  /** A subscribed callback, identified by reference. */
  type Listener = nat

  class Store {
    /** The published id list. */
    var ids: seq<int>
    /** The subscribed callbacks; subscribing twice keeps one entry. */
    var listeners: set<Listener>
    /** Every listener invocation so far, in order. */
    var calls: seq<Listener>

    constructor ()
      ensures ids == [] && listeners == {} && calls == []
    {
      ids := [];
      listeners := {};
      calls := [];
    }

    /** The snapshot readers get; reading changes nothing. */
    method GetCollisionIds() returns (r: seq<int>)
      ensures r == ids
    {
      r := ids;
    }

    /** Invokes every subscribed listener once. */
    method Emit()
      modifies this`calls
      ensures |old(calls)| <= |calls| && calls[..|old(calls)|] == old(calls)
      ensures multiset(calls[|old(calls)|..]) == multiset(listeners)
    {
      var pending := listeners;
      ghost var start := |calls|;
      while pending != {}
        invariant pending <= listeners
        invariant start <= |calls| && calls[..start] == old(calls)
        invariant multiset(calls[start..]) + multiset(pending) == multiset(listeners)
        decreases pending
      {
        var l :| l in pending;
        ghost var done := calls[start..];
        calls := calls + [l];
        assert calls[start..] == done + [l];
        pending := pending - {l};
      }
    }

    /** Publishes `next` and then notifies every current listener once. */
    method SetCollisionIds(next: seq<int>)
      modifies this
      ensures ids == next && listeners == old(listeners)
      ensures |old(calls)| <= |calls| && calls[..|old(calls)|] == old(calls)
      ensures multiset(calls[|old(calls)|..]) == multiset(listeners)
    {
      ids := next;
      Emit();
    }

    /** Adds the listener; the store's data and its call log are untouched. */
    method SubscribeCollisionIds(listener: Listener)
      modifies this`listeners
      ensures listeners == old(listeners) + {listener}
    {
      listeners := listeners + {listener};
    }

    /** The function returned by SubscribeCollisionIds: removes the listener. */
    method Unsubscribe(listener: Listener)
      modifies this`listeners
      ensures listeners == old(listeners) - {listener}
    {
      listeners := listeners - {listener};
    }
  }

  /**
   * A client run: a listener subscribed twice is notified once per write,
   * and not at all after it unsubscribes; readers see the last write.
   */
  method SubscriptionScenario(a: Listener, b: Listener, first: seq<int>, second: seq<int>)
    requires a != b
  {
    var store := new Store();
    var initial := store.GetCollisionIds();
    assert initial == [];
    store.SubscribeCollisionIds(a);
    store.SubscribeCollisionIds(a);
    store.SubscribeCollisionIds(b);
    assert store.listeners == {a, b};
    store.SetCollisionIds(first);
    assert multiset(store.calls) == multiset{a, b};
    var seen := store.GetCollisionIds();
    assert seen == first;
    store.Unsubscribe(a);
    var before := store.calls;
    store.SetCollisionIds(second);
    var tail := store.calls[|before|..];
    assert store.calls == before + tail;
    assert |tail| == |multiset(tail)| == 1;
    assert tail[0] in multiset(tail);
    assert store.calls == before + [b];
    seen := store.GetCollisionIds();
    assert seen == second;
  }
}
