/**
 * The in-page publish/subscribe hub: a dictionary from event name to the
 * ordered list of callbacks registered for it.  Callbacks are opaque; the
 * model names each one by an identity, and `Emit` reports which
 * registrations it invoked, in order.
 */
module EventBus {
  import opened Common

  /** A registered callback, identified by reference. */
  type Callback = nat

  // The event names the client publishes.
  const UserUpdated := "user_updated"
  const UserDeleted := "user_deleted"
  const CollectionUpdated := "collection_updated"
  const DataRefreshNeeded := "data_refresh_needed"
  const UserAccessDenied := "user_access_denied"
  const UserDeactivated := "user_deactivated"
  const UserReactivated := "user_reactivated"

  /** The listener list of `event`; an event never registered has none. */
  function Listeners(events: map<string, seq<Callback>>, event: string): seq<Callback>
  {
    if event in events then events[event] else []
  }

  /** A listener list with every registration of `cb` taken out. */
  function Without(l: seq<Callback>, cb: Callback): (r: seq<Callback>)
    ensures cb !in r
    ensures forall x :: x in r <==> x in l && x != cb
    ensures IsSubseq(r, l)
    ensures forall x :: x != cb ==> multiset(r)[x] == multiset(l)[x]
  {
    FilterIsSubseq(l, y => y != cb);
    forall x | x != cb ensures multiset(Filter(l, y => y != cb))[x] == multiset(l)[x] {
      FilterMultiset(l, y => y != cb, x);
    }
    Filter(l, y => y != cb)
  }

  /** Taking out a callback that was never registered changes nothing. */
  lemma WithoutAbsent(l: seq<Callback>, cb: Callback)
    requires cb !in l
    ensures Without(l, cb) == l
  {
    FilterKeepsAll(l, y => y != cb);
  }

  /** Registering a callback and then unregistering it leaves no trace of either call. */
  lemma {:induction false} WithoutAfterAppend(l: seq<Callback>, cb: Callback)
    ensures Without(l + [cb], cb) == Without(l, cb)
  {
    if l == [] {
      assert [] + [cb] == [cb];
    } else {
      assert (l + [cb])[1..] == l[1..] + [cb];
      WithoutAfterAppend(l[1..], cb);
    }
  }

  class Bus {
    var events: map<string, seq<Callback>>

    constructor()
      ensures events == map[]
    {
      events := map[];
    }

    /** The listeners `emit` would call for `event` right now. */
    function ListenersOf(event: string): seq<Callback>
      reads this
    {
      Listeners(events, event)
    }

    /**
     * `on`: append `cb` to the list of `event`, creating the list when the
     * event is new.  A callback may be registered more than once.
     */
    method On(event: string, cb: Callback)
      modifies this
      ensures events == old(events)[event := Listeners(old(events), event) + [cb]]
    {
      var list := if event in events then events[event] else [];
      events := events[event := list + [cb]];
    }

    /**
     * `off`: replace the list of `event` by one without `cb`.  An event
     * that was never registered is left alone (an emptied list stays).
     */
    method Off(event: string, cb: Callback)
      modifies this
      ensures event !in old(events) ==> events == old(events)
      ensures event in old(events) ==> events == old(events)[event := Without(old(events)[event], cb)]
    {
      if event !in events {
        return;
      }
      events := events[event := Without(events[event], cb)];
    }

    /**
     * `emit`: call every registration of `event` once, in registration
     * order.  The list walked is the one held when `emit` starts.
     */
    method Emit(event: string) returns (calls: seq<Callback>)
      ensures calls == Listeners(events, event)
    {
      calls := [];
      if event !in events {
        return;
      }
      var list := events[event];
      var i := 0;
      while i < |list|
        invariant 0 <= i <= |list|
        invariant calls == list[..i]
      {
        calls := calls + [list[i]];
        i := i + 1;
      }
      assert list[..|list|] == list;
    }
  }

  /** The list `emit` walks after `on(cb)` is the earlier list followed by `cb`. */
  lemma OnThenEmit(events: map<string, seq<Callback>>, event: string, cb: Callback, other: string)
    ensures Listeners(events[event := Listeners(events, event) + [cb]], event) == Listeners(events, event) + [cb]
    ensures other != event ==> Listeners(events[event := Listeners(events, event) + [cb]], other) == Listeners(events, other)
  {
  }

  /** After `on(cb)` then `off(cb)`, `emit` calls exactly the earlier registrations other than `cb`. */
  lemma OnThenOff(events: map<string, seq<Callback>>, event: string, cb: Callback)
    ensures var after := events[event := Listeners(events, event) + [cb]];
            Listeners(after[event := Without(after[event], cb)], event) == Without(Listeners(events, event), cb)
  {
    WithoutAfterAppend(Listeners(events, event), cb);
  }
}
