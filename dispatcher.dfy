/**
 * EventDispatcher: the registry of handlers per event type, and the order
 * in which publish hands an event to them.
 */
module Dispatcher {

  /**
   * A handler: its identity, its __name__, whether it is a coroutine
   * function, and whether calling it raises.
   */
  datatype Handler = Handler(id: int, name: string, isAsync: bool, raises: bool)

  type Registry = map<string, seq<Handler>>

  /** subscribe: a new event type gets an empty list, then the handler is appended. */
  function Subscribe(m: Registry, eventType: string, h: Handler): (r: Registry)
    ensures r.Keys == m.Keys + {eventType}
    ensures eventType in m ==> r[eventType] == m[eventType] + [h]
    ensures eventType !in m ==> r[eventType] == [h]
    ensures forall t :: t in m && t != eventType ==> r[t] == m[t]
  {
    m[eventType := (if eventType in m then m[eventType] else []) + [h]]
  }

  /** The index of the first occurrence of h in hs. */
  function FirstIndex(hs: seq<Handler>, h: Handler): (i: nat)
    requires h in hs
    ensures i < |hs| && hs[i] == h && h !in hs[..i]
  {
    if hs[0] == h then 0
    else
      var i := FirstIndex(hs[1..], h);
      assert hs[1..][..i] == hs[1..i + 1];
      1 + i
  }

  /** list.remove: drop the first occurrence. */
  function RemoveFirst(hs: seq<Handler>, h: Handler): (r: seq<Handler>)
    requires h in hs
    ensures |r| == |hs| - 1
    ensures r == hs[..FirstIndex(hs, h)] + hs[FirstIndex(hs, h) + 1..]
    ensures multiset(r) == multiset(hs) - multiset{h}
  {
    var i := FirstIndex(hs, h);
    assert hs == hs[..i] + [hs[i]] + hs[i + 1..];
    hs[..i] + hs[i + 1..]
  }

  /**
   * unsubscribe: the first occurrence is removed from the registered list;
   * an unknown handler or event type changes nothing (no list is created).
   */
  function Unsubscribe(m: Registry, eventType: string, h: Handler): (r: Registry)
    ensures r.Keys == m.Keys
    ensures forall t :: t in m && t != eventType ==> r[t] == m[t]
    ensures eventType !in m || h !in m[eventType] ==> r == m
    ensures eventType in m && h in m[eventType] ==> multiset(r[eventType]) == multiset(m[eventType]) - multiset{h}
  {
    if eventType in m && h in m[eventType] then m[eventType := RemoveFirst(m[eventType], h)] else m
  }

  /** What publish does with one handler: a coroutine is scheduled, a plain function is called, and a raise is logged. */
  datatype Delivery = Scheduled(h: Handler) | Called(h: Handler) | Logged(h: Handler)

  function Deliver(h: Handler): (d: Delivery)
    ensures d.h == h
  {
    if h.isAsync then Scheduled(h) else if h.raises then Logged(h) else Called(h)
  }

  function Names(hs: seq<Handler>): (names: seq<string>)
    ensures |names| == |hs| && forall i :: 0 <= i < |hs| ==> names[i] == hs[i].name
  {
    if hs == [] then [] else [hs[0].name] + Names(hs[1..])
  }

  /** get_subscribers: each event type mapped to its handlers' names, in order. */
  function SubscriberNames(m: Registry): (r: map<string, seq<string>>)
    ensures r.Keys == m.Keys
    ensures forall t :: t in m ==> |r[t]| == |m[t]| && forall i :: 0 <= i < |m[t]| ==> r[t][i] == m[t][i].name
  {
    map t | t in m :: Names(m[t])
  }

  // ---------------------------------------------------------------------
  // Properties

  /** Handlers stay in subscription order and a handler subscribed twice is listed twice. */
  lemma SubscribeKeepsOrderAndDuplicates(m: Registry, eventType: string, h: Handler)
    ensures var r := Subscribe(Subscribe(m, eventType, h), eventType, h);
      var before := if eventType in m then m[eventType] else [];
      r[eventType] == before + [h, h]
      && multiset(r[eventType])[h] == multiset(before)[h] + 2
  {
    var before := if eventType in m then m[eventType] else [];
    assert before + [h] + [h] == before + [h, h];
  }

  /** Unsubscribing a handler just subscribed (and not there before) restores the list. */
  lemma UnsubscribeUndoesSubscribe(m: Registry, eventType: string, h: Handler)
    requires eventType in m ==> h !in m[eventType]
    ensures var r := Unsubscribe(Subscribe(m, eventType, h), eventType, h);
      r[eventType] == (if eventType in m then m[eventType] else [])
      && forall t :: t in m ==> t in r && r[t] == m[t]
  {
    var before := if eventType in m then m[eventType] else [];
    var s := Subscribe(m, eventType, h);
    assert s[eventType] == before + [h];
    RemoveFirstOfAppended(before, h);
  }

  /** Removing the first h from a list that gains its only h at the end gives the list back. */
  lemma RemoveFirstOfAppended(before: seq<Handler>, h: Handler)
    requires h !in before
    ensures RemoveFirst(before + [h], h) == before
  {
    var hs := before + [h];
    assert hs[|before|] == h;
    assert forall j :: 0 <= j < |before| ==> hs[j] == before[j];
    assert FirstIndex(hs, h) == |before|;
    assert hs[..|before|] == before;
  }

  /** Of two subscriptions of one handler, unsubscribe removes the earlier one and keeps the later. */
  lemma UnsubscribeRemovesFirstOnly(hs: seq<Handler>, h: Handler)
    requires h !in hs
    ensures RemoveFirst([h] + hs + [h], h) == hs + [h]
  {
    assert ([h] + hs + [h])[1..] == hs + [h];
  }

  // ---------------------------------------------------------------------
  // The dispatcher

  class EventDispatcher {
    var subscribers: Registry

    constructor ()
      ensures subscribers == map[]
    {
      subscribers := map[];
    }

    method SubscribeHandler(eventType: string, h: Handler)
      modifies this
      ensures subscribers == Subscribe(old(subscribers), eventType, h)
    {
      if eventType !in subscribers {
        subscribers := subscribers[eventType := []];
      }
      subscribers := subscribers[eventType := subscribers[eventType] + [h]];
    }

    method UnsubscribeHandler(eventType: string, h: Handler)
      modifies this
      ensures subscribers == Unsubscribe(old(subscribers), eventType, h)
    {
      var handlers := if eventType in subscribers then subscribers[eventType] else [];
      if h in handlers {
        subscribers := subscribers[eventType := RemoveFirst(handlers, h)];
      }
    }

    method Clear()
      modifies this
      ensures subscribers == map[]
    {
      subscribers := map[];
    }

    /**
     * publish, for its registry part: the deliveries in handler order; none
     * when no handler is registered. The registry is not changed.
     */
    method Publish(eventType: string) returns (deliveries: seq<Delivery>)
      ensures eventType !in subscribers || subscribers[eventType] == [] ==> deliveries == []
      ensures eventType in subscribers ==>
        |deliveries| == |subscribers[eventType]|
        && forall k :: 0 <= k < |deliveries| ==> deliveries[k] == Deliver(subscribers[eventType][k])
    {
      var handlers := if eventType in subscribers then subscribers[eventType] else [];
      deliveries := [];
      if handlers == [] {
        return;
      }
      var i := 0;
      while i < |handlers|
        invariant 0 <= i <= |handlers|
        invariant |deliveries| == i
        invariant forall k :: 0 <= k < i ==> deliveries[k] == Deliver(handlers[k])
      {
        var h := handlers[i];
        if h.isAsync {
          deliveries := deliveries + [Scheduled(h)];
        } else if h.raises {
          deliveries := deliveries + [Logged(h)];
        } else {
          deliveries := deliveries + [Called(h)];
        }
        i := i + 1;
      }
    }

    function GetSubscribers(): (r: map<string, seq<string>>)
      reads this
      ensures r == SubscriberNames(subscribers)
    {
      SubscriberNames(subscribers)
    }
  }
}
