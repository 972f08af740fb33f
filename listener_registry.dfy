/**
 * The listener registry of the client event hub (frontend/services/websocket.ts):
 * a map from event name to the set of callbacks subscribed to it.
 *
 * A JavaScript `Set` keeps its elements in insertion order and holds each at
 * most once, so a set of callbacks is a sequence without duplicates. A
 * callback is known by its identity only. The registry never deletes an
 * event name: unsubscribing the last callback leaves an empty set behind.
 */
module ListenerRegistry {

  /** The identity of a callback function object. */
  type Callback = nat

  /** The fields of the JSON object delivered with an event. */
  type Payload = map<string, string>

  type Registry = map<string, seq<Callback>>

  predicate NoDuplicates(s: seq<Callback>) {
    forall i, j :: 0 <= i < j < |s| ==> s[i] != s[j]
  }

  /** Every event's callbacks form a set. */
  predicate Valid(reg: Registry) {
    forall e :: e in reg ==> NoDuplicates(reg[e])
  }

  /** The callbacks of `event`; an absent event has none. */
  function Subscribers(reg: Registry, event: string): (r: seq<Callback>)
    ensures Valid(reg) ==> NoDuplicates(r)
    ensures forall cb :: cb in r <==> event in reg && cb in reg[event]
    ensures event in reg ==> r == reg[event]
    ensures event !in reg ==> r == []
  {
    if event in reg then reg[event] else []
  }

  /** `set.add(cb)`: appended at the end unless already present. */
  function SetAdd(s: seq<Callback>, cb: Callback): (r: seq<Callback>)
    ensures NoDuplicates(s) ==> NoDuplicates(r)
  {
    if cb in s then s else s + [cb]
  }

  /** `set.delete(cb)`: drops `cb` and keeps the others in order. */
  function SetDelete(s: seq<Callback>, cb: Callback): (r: seq<Callback>)
    ensures forall x :: x in r <==> x in s && x != cb
    ensures |r| <= |s|
  {
    if s == [] then []
    else if s[0] == cb then SetDelete(s[1..], cb)
    else [s[0]] + SetDelete(s[1..], cb)
  }

  /** The registry side of `on(event, cb)`: create the event's set if absent, then add `cb`. */
  function Register(reg: Registry, event: string, cb: Callback): (r: Registry)
    ensures r.Keys == reg.Keys + {event}
    ensures Valid(reg) ==> Valid(r)
  {
    reg[event := SetAdd(Subscribers(reg, event), cb)]
  }

  /**
   * The unsubscribe closure returned by `on(event, cb)`: delete `cb` from the
   * set captured for `event`. That set is the one still in the map, because
   * the registry never removes an event name.
   */
  function Unregister(reg: Registry, event: string, cb: Callback): (r: Registry)
    requires event in reg
    ensures r.Keys == reg.Keys
  {
    reg[event := SetDelete(reg[event], cb)]
  }

  lemma {:induction false} SetDeletePreservesNoDuplicates(s: seq<Callback>, cb: Callback)
    requires NoDuplicates(s)
    ensures NoDuplicates(SetDelete(s, cb))
    decreases |s|
  {
    if s != [] {
      SetDeletePreservesNoDuplicates(s[1..], cb);
      if s[0] != cb {
        assert s[0] !in SetDelete(s[1..], cb);
      }
    }
  }

  lemma UnregisterPreservesValid(reg: Registry, event: string, cb: Callback)
    requires Valid(reg) && event in reg
    ensures Valid(Unregister(reg, event, cb))
  {
    SetDeletePreservesNoDuplicates(reg[event], cb);
  }

  /**
   * `on(event, cb)` adds `cb` to the end of the event's set unless it is already
   * there, and every other event keeps exactly its callbacks.
   */
  lemma RegisterEffect(reg: Registry, event: string, cb: Callback)
    ensures var r := Register(reg, event, cb);
            && cb in r[event]
            && (cb in Subscribers(reg, event) ==> r[event] == Subscribers(reg, event))
            && (cb !in Subscribers(reg, event) ==> r[event] == Subscribers(reg, event) + [cb])
            && forall e :: e != event ==> Subscribers(r, e) == Subscribers(reg, e)
  {
  }

  /** Subscribing the same callback twice is the same as subscribing it once. */
  lemma RegisterTwiceIsOnce(reg: Registry, event: string, cb: Callback)
    ensures Register(Register(reg, event, cb), event, cb) == Register(reg, event, cb)
  {
  }

  /** Deleting a callback appended to a set that did not hold it gives back the set. */
  lemma {:induction false} DeleteAfterAppend(s: seq<Callback>, cb: Callback)
    requires cb !in s
    ensures SetDelete(s + [cb], cb) == s
    decreases |s|
  {
    if s == [] {
      assert [] + [cb] == [cb];
    } else {
      assert (s + [cb])[1..] == s[1..] + [cb];
      DeleteAfterAppend(s[1..], cb);
    }
  }

  /** Deleting a callback that is not in the set leaves the set as it was. */
  lemma {:induction false} DeleteAbsent(s: seq<Callback>, cb: Callback)
    requires cb !in s
    ensures SetDelete(s, cb) == s
    decreases |s|
  {
    if s != [] {
      DeleteAbsent(s[1..], cb);
    }
  }

  /**
   * Subscribe then unsubscribe is a round trip: the event's set is back to what
   * it was (the name itself stays registered, with possibly an empty set).
   */
  lemma UnsubscribeUndoesSubscribe(reg: Registry, event: string, cb: Callback)
    requires cb !in Subscribers(reg, event)
    ensures Subscribers(Unregister(Register(reg, event, cb), event, cb), event) == Subscribers(reg, event)
  {
    DeleteAfterAppend(Subscribers(reg, event), cb);
  }

  /**
   * Because the registry holds a set, one unsubscribe removes a callback that
   * was subscribed twice (both unsubscribe closures refer to the same entry).
   */
  lemma OneUnsubscribeAfterDoubleSubscribe(reg: Registry, event: string, cb: Callback)
    ensures var twice := Register(Register(reg, event, cb), event, cb);
            cb !in Unregister(twice, event, cb)[event]
  {
  }

  /**
   * Unsubscribing removes only `cb` from only `event`: the other callbacks of the
   * event stay (their order is UnregisterKeepsOrder), an absent `cb` changes
   * nothing, and calling it again changes nothing.
   */
  lemma UnregisterEffect(reg: Registry, event: string, cb: Callback)
    requires event in reg
    ensures var r := Unregister(reg, event, cb);
            && cb !in r[event]
            && (forall x :: x != cb ==> (x in r[event] <==> x in reg[event]))
            && (forall e :: e != event ==> Subscribers(r, e) == Subscribers(reg, e))
            && (cb !in reg[event] ==> r[event] == reg[event])
            && Unregister(r, event, cb) == r
  {
    var r := Unregister(reg, event, cb);
    DeleteAbsent(r[event], cb);
    if cb !in reg[event] {
      DeleteAbsent(reg[event], cb);
    }
  }

  /** Deleting a member of a set takes out just that position: the callbacks before and after it keep their order. */
  lemma {:induction false} SetDeleteKeepsOrder(s: seq<Callback>, cb: Callback, k: nat)
    requires NoDuplicates(s) && k < |s| && s[k] == cb
    ensures SetDelete(s, cb) == s[..k] + s[k + 1..]
    decreases |s|
  {
    if k == 0 {
      DeleteAbsent(s[1..], cb);
    } else {
      SetDeleteKeepsOrder(s[1..], cb, k - 1);
      assert s[..k] == [s[0]] + s[1..][..k - 1];
      assert s[k + 1..] == s[1..][k..];
    }
  }

  /**
   * Unsubscribing a subscribed callback removes its position from the event's
   * set and nothing else, so later dispatches reach the others in the same order.
   */
  lemma UnregisterKeepsOrder(reg: Registry, event: string, cb: Callback, k: nat)
    requires Valid(reg) && event in reg && k < |reg[event]| && reg[event][k] == cb
    ensures Unregister(reg, event, cb)[event] == reg[event][..k] + reg[event][k + 1..]
    ensures Subscribers(Unregister(reg, event, cb), event) == Subscribers(reg, event)[..k] + Subscribers(reg, event)[k + 1..]
  {
    SetDeleteKeepsOrder(reg[event], cb, k);
  }

  /** One call to a listener during a dispatch: what it received and whether it threw. */
  datatype Invocation = Invocation(callback: Callback, data: Payload, threw: bool)

  /**
   * What `notifyListeners(event, data)` does: each callback of the event, in
   * set order, is called with `data`; a callback in `failing` throws, the
   * error is caught and logged, and the next callback still runs.
   */
  function Deliveries(reg: Registry, event: string, data: Payload, failing: set<Callback>): (r: seq<Invocation>)
    ensures |r| == |Subscribers(reg, event)|
    ensures forall i :: 0 <= i < |r| ==>
              r[i].callback == Subscribers(reg, event)[i] && r[i].data == data
              && (r[i].threw <==> r[i].callback in failing)
  {
    var cbs := Subscribers(reg, event);
    seq(|cbs|, i requires 0 <= i < |cbs| => Invocation(cbs[i], data, cbs[i] in failing))
  }

  /** The number of times `cb` was called in a dispatch. */
  function CallCount(log: seq<Invocation>, cb: Callback): nat
    decreases |log|
  {
    if log == [] then 0 else (if log[0].callback == cb then 1 else 0) + CallCount(log[1..], cb)
  }

  lemma {:induction false} CallCountOfSet(log: seq<Invocation>, cbs: seq<Callback>, cb: Callback)
    requires |log| == |cbs| && NoDuplicates(cbs)
    requires forall i :: 0 <= i < |log| ==> log[i].callback == cbs[i]
    ensures CallCount(log, cb) == if cb in cbs then 1 else 0
    decreases |log|
  {
    if log != [] {
      CallCountOfSet(log[1..], cbs[1..], cb);
      if cbs[0] == cb {
        assert cb !in cbs[1..];
      }
    }
  }

  /** Each subscribed callback is called exactly once per event; any other callback never. */
  lemma DispatchCallsEachOnce(reg: Registry, event: string, data: Payload, failing: set<Callback>, cb: Callback)
    requires Valid(reg)
    ensures CallCount(Deliveries(reg, event, data, failing), cb) ==
            if cb in Subscribers(reg, event) then 1 else 0
  {
    CallCountOfSet(Deliveries(reg, event, data, failing), Subscribers(reg, event), cb);
  }

  /** Failure isolation: which callbacks are reached, and in what order, does not depend on which of them throw. */
  lemma ThrowingDoesNotStopDispatch(reg: Registry, event: string, data: Payload, failing: set<Callback>)
    ensures var withFailures := Deliveries(reg, event, data, failing);
            var withoutFailures := Deliveries(reg, event, data, {});
            |withFailures| == |withoutFailures| &&
            forall i :: 0 <= i < |withFailures| ==> withFailures[i].callback == withoutFailures[i].callback
  {
  }

  /** After unsubscribing, the callback is never called again for that event. */
  lemma UnsubscribedNeverCalled(reg: Registry, event: string, data: Payload, failing: set<Callback>, cb: Callback)
    requires Valid(reg) && event in reg
    ensures CallCount(Deliveries(Unregister(reg, event, cb), event, data, failing), cb) == 0
  {
    UnregisterPreservesValid(reg, event, cb);
    DispatchCallsEachOnce(Unregister(reg, event, cb), event, data, failing, cb);
  }

  /** An event nobody ever subscribed to dispatches to no one. */
  lemma UnknownEventDispatchesNothing(reg: Registry, event: string, data: Payload, failing: set<Callback>)
    requires event !in reg
    ensures Deliveries(reg, event, data, failing) == []
  {
  }
}
