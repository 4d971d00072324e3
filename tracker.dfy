/**
 * The deferred work of one round of applying platform data: Data
 * references waiting to be resolved, Message events waiting to be
 * delivered, data-update notifications waiting to be fired, and keys
 * waiting to be removed from the Data registry. Resolving needs the fetch
 * of the client, so the resolution loop lives with the client; this module
 * holds the queues and the other three steps.
 */
module Tracking {
  import opened Wrappers
  import opened Keys
  import opened JsHeap
  import opened Registry
  import Guards

  /**
   * What a resolution callback does with what it receives. `Discard` is the
   * null callback; `Assign` stores the one resolved value through an effect;
   * `AssignPair` is the map-entry callback of a two-key item, which sets the
   * value resolved for the second key under the value resolved for the first.
   */
  datatype Callback = Discard | Assign(target: Handle, effect: Effect) | AssignPair(target: Handle)

  datatype ResolutionItem =
    | Single(key: DataKey, callback: Callback)
    | Multi(keys: seq<DataKey>, callback: Callback)

  /**
   * A Message event waiting for the listeners of its instance key; `key` is
   * that instance key as the listener table stores it.
   */
  datatype Delivery = Delivery(key: string, event: Handle)

  /** The value a callback receives for one key: the instance, or null. */
  function Resolved(instance: Option<Handle>): (v: Native)
    ensures v.Ref? <==> instance.Some?
    ensures instance.Some? ==> v == Ref(instance.value)
  {
    if instance.Some? then Ref(instance.value) else Null
  }

  /** The objects after a callback has run with the values resolved for its keys, in key order. */
  function Invoked(objects: seq<Obj>, cb: Callback, values: seq<Native>): (r: seq<Obj>)
    ensures |r| == |objects|
    ensures cb.Discard? ==> r == objects
    ensures cb.Assign? && |values| > 0 ==> r == Performed(objects, cb.target, cb.effect, values[0])
    ensures cb.AssignPair? && |values| > 1 ==> r == Performed(objects, cb.target, MapValueOf(values[0]), values[1])
    ensures forall i :: 0 <= i < |objects| && !(cb.Assign? && i == cb.target) && !(cb.AssignPair? && i == cb.target) ==> r[i] == objects[i]
  {
    match cb
    case Discard => objects
    case Assign(t, e) => if |values| > 0 then Performed(objects, t, e, values[0]) else objects
    case AssignPair(t) => if |values| > 1 then Performed(objects, t, MapValueOf(values[0]), values[1]) else objects
  }

  // ---------------------------------------------------------------------
  // The listener calls the two firing queues make.

  /** One queued event delivered to each listener, in registration order. */
  function Deliveries(listeners: seq<ListenerId>, event: Handle): (fired: seq<Fired>)
    ensures |fired| == |listeners|
    ensures forall i :: 0 <= i < |listeners| ==> fired[i] == MessageDelivered(listeners[i], event)
  {
    seq(|listeners|, i requires 0 <= i < |listeners| => MessageDelivered(listeners[i], event))
  }

  /** The calls one queued event makes: none when its instance key has no listener list. */
  function EventCalls(d: Delivery, table: map<string, seq<ListenerId>>): (fired: seq<Fired>)
  {
    var k := d.key;
    if k in table then Deliveries(table[k], d.event) else []
  }

  /** The calls firing a message queue makes: entries in enqueue order, an entry without listeners skipped. */
  function MessageTrace(queue: seq<Delivery>, table: map<string, seq<ListenerId>>): seq<Fired>
  {
    if |queue| == 0 then []
    else MessageTrace(queue[..|queue| - 1], table) + EventCalls(queue[|queue| - 1], table)
  }

  lemma MessageTraceStep(queue: seq<Delivery>, i: nat, table: map<string, seq<ListenerId>>)
    requires i < |queue|
    ensures MessageTrace(queue[..i + 1], table) == MessageTrace(queue[..i], table) + EventCalls(queue[i], table)
  {
    assert queue[..i + 1][..i] == queue[..i];
  }

  /** A queue of one event makes exactly that event's calls. */
  lemma MessageTraceSingle(d: Delivery, table: map<string, seq<ListenerId>>)
    ensures MessageTrace([d], table) == EventCalls(d, table)
  {
    assert [d][..0] == [];
  }

  /** Firing two queues one after the other makes the calls of firing them as one queue. */
  lemma {:induction false} MessageTraceAppend(q1: seq<Delivery>, q2: seq<Delivery>, table: map<string, seq<ListenerId>>)
    ensures MessageTrace(q1 + q2, table) == MessageTrace(q1, table) + MessageTrace(q2, table)
    decreases |q2|
  {
    if |q2| == 0 {
      assert q1 + q2 == q1;
    } else {
      var q2' := q2[..|q2| - 1];
      assert (q1 + q2)[..|q1 + q2| - 1] == q1 + q2';
      assert (q1 + q2)[|q1 + q2| - 1] == q2[|q2| - 1];
      MessageTraceAppend(q1, q2', table);
    }
  }

  /** A call that hands the event of `d` to a listener registered for its instance key. */
  predicate Delivers(f: Fired, d: Delivery, table: map<string, seq<ListenerId>>)
  {
    f.MessageDelivered? && f.event == d.event &&
    d.key in table && f.listener in table[d.key]
  }

  /**
   * Every call delivers a queued event to a listener registered for that
   * event's instance key.
   */
  lemma {:induction false} MessageTraceSources(queue: seq<Delivery>, table: map<string, seq<ListenerId>>)
    ensures forall f :: f in MessageTrace(queue, table) ==>
      f.MessageDelivered? && exists j :: 0 <= j < |queue| && Delivers(f, queue[j], table)
  {
    if |queue| > 0 {
      var q' := queue[..|queue| - 1];
      MessageTraceSources(q', table);
      var d := queue[|queue| - 1];
      var k := d.key;
      forall f | f in MessageTrace(queue, table)
        ensures f.MessageDelivered? && exists j :: 0 <= j < |queue| && Delivers(f, queue[j], table)
      {
        if f in MessageTrace(q', table) {
          var j :| 0 <= j < |q'| && Delivers(f, q'[j], table);
          assert q'[j] == queue[j];
        } else {
          assert k in table && f in Deliveries(table[k], d.event);
          var i :| 0 <= i < |table[k]| && f == Deliveries(table[k], d.event)[i];
          assert Delivers(f, queue[|queue| - 1], table);
        }
      }
    }
  }

  /** One data-update event delivered to each listener of its target, in registration order. */
  function Notifications(listeners: seq<ListenerId>, e: DataUpdatedEvent): (fired: seq<Fired>)
    ensures |fired| == |listeners|
    ensures forall i :: 0 <= i < |listeners| ==> fired[i] == UpdateDelivered(listeners[i], e)
  {
    seq(|listeners|, i requires 0 <= i < |listeners| => UpdateDelivered(listeners[i], e))
  }

  /** The calls firing an update queue makes: entries in enqueue order, an entry without listeners skipped. */
  function UpdateTrace(queue: seq<DataUpdatedEvent>, listeners: map<Handle, seq<ListenerId>>): seq<Fired>
  {
    if |queue| == 0 then []
    else UpdateTrace(queue[..|queue| - 1], listeners) + UpdateCalls(queue[|queue| - 1], listeners)
  }

  /** The calls one queued update makes: none when its object has no listener list. */
  function UpdateCalls(e: DataUpdatedEvent, listeners: map<Handle, seq<ListenerId>>): (fired: seq<Fired>)
    ensures e.target !in listeners ==> fired == []
    ensures e.target in listeners ==> fired == Notifications(listeners[e.target], e)
  {
    if e.target in listeners then Notifications(listeners[e.target], e) else []
  }

  lemma {:induction false} UpdateTraceAppend(q1: seq<DataUpdatedEvent>, q2: seq<DataUpdatedEvent>, listeners: map<Handle, seq<ListenerId>>)
    ensures UpdateTrace(q1 + q2, listeners) == UpdateTrace(q1, listeners) + UpdateTrace(q2, listeners)
    decreases |q2|
  {
    if |q2| == 0 {
      assert q1 + q2 == q1;
    } else {
      var q2' := q2[..|q2| - 1];
      assert (q1 + q2)[..|q1 + q2| - 1] == q1 + q2';
      assert (q1 + q2)[|q1 + q2| - 1] == q2[|q2| - 1];
      UpdateTraceAppend(q1, q2', listeners);
    }
  }

  /** The trace of one more queued update. */
  lemma UpdateTraceNext(queue: seq<DataUpdatedEvent>, i: nat, listeners: map<Handle, seq<ListenerId>>)
    requires i < |queue|
    ensures UpdateTrace(queue[..i + 1], listeners) == UpdateTrace(queue[..i], listeners) + UpdateCalls(queue[i], listeners)
  {
    assert queue[..i + 1][..i] == queue[..i];
  }

  lemma AppendAssoc<T>(a: seq<T>, b: seq<T>, c: seq<T>)
    ensures (a + b) + c == a + (b + c)
  {
  }

  /** A listener learns of its own object only, with the flag the event was queued with. */
  lemma {:induction false} UpdateTraceSources(queue: seq<DataUpdatedEvent>, listeners: map<Handle, seq<ListenerId>>)
    ensures forall f :: f in UpdateTrace(queue, listeners) ==>
      f.UpdateDelivered? && f.update in queue &&
      f.update.target in listeners && f.listener in listeners[f.update.target]
  {
    if |queue| > 0 {
      var q' := queue[..|queue| - 1];
      UpdateTraceSources(q', listeners);
      var e := queue[|queue| - 1];
      forall f | f in UpdateTrace(queue, listeners)
        ensures f.UpdateDelivered? && f.update in queue &&
          f.update.target in listeners && f.listener in listeners[f.update.target]
      {
        if f in UpdateTrace(q', listeners) {
          assert f.update in q';
          var j :| 0 <= j < |q'| && q'[j] == f.update;
          assert queue[j] == f.update;
        } else {
          var i :| 0 <= i < |listeners[e.target]| && f == Notifications(listeners[e.target], e)[i];
        }
      }
    }
  }

  /** An object with listeners that the registry does not know: firing it fails. */
  predicate Unknown(e: DataUpdatedEvent, listeners: map<Handle, seq<ListenerId>>, keys: map<Handle, DataKey>)
  {
    e.target in listeners && e.target !in keys
  }

  /** How many entries fire before the first one whose object is unknown. */
  function FiredCount(queue: seq<DataUpdatedEvent>, listeners: map<Handle, seq<ListenerId>>, keys: map<Handle, DataKey>): (n: nat)
    ensures n <= |queue|
    ensures forall i :: 0 <= i < n ==> !Unknown(queue[i], listeners, keys)
    ensures n < |queue| ==> Unknown(queue[n], listeners, keys)
  {
    if |queue| == 0 then 0
    else if Unknown(queue[0], listeners, keys) then 0
    else 1 + FiredCount(queue[1..], listeners, keys)
  }

  /** When every listened object is known to the registry, the whole queue fires. */
  lemma {:induction false} ListenedKnownFiresAll(queue: seq<DataUpdatedEvent>, listeners: map<Handle, seq<ListenerId>>, keys: map<Handle, DataKey>)
    requires forall h :: h in listeners ==> h in keys
    ensures FiredCount(queue, listeners, keys) == |queue|
  {
    if |queue| > 0 {
      ListenedKnownFiresAll(queue[1..], listeners, keys);
    }
  }

  /** The value strings of some keys. */
  function KeyValues(keys: seq<DataKey>): (r: set<string>)
    ensures forall k :: k in keys ==> DataKeyValue(k) in r
    ensures forall s :: s in r ==> exists k :: k in keys && DataKeyValue(k) == s
  {
    set k | k in keys :: DataKeyValue(k)
  }

  lemma KeyValuesStep(keys: seq<DataKey>, i: nat)
    requires i < |keys|
    ensures KeyValues(keys[..i + 1]) == KeyValues(keys[..i]) + {DataKeyValue(keys[i])}
  {
    assert keys[..i + 1] == keys[..i] + [keys[i]];
  }

  lemma RemoveOneMore<V>(m: map<string, V>, gone: set<string>, s: string)
    ensures (m - gone) - {s} == m - (gone + {s})
  {
  }

  // ---------------------------------------------------------------------

  class Tracker {
    var resolution: seq<ResolutionItem>
    var messages: seq<Delivery>
    var updates: seq<DataUpdatedEvent>
    var deletes: seq<DataKey>

    constructor()
      ensures resolution == [] && messages == [] && updates == [] && deletes == []
    {
      resolution := [];
      messages := [];
      updates := [];
      deletes := [];
    }

    /** dataResolutionQueue.enqueue. */
    method Enqueue(key: DataKey, cb: Callback)
      modifies this
      ensures resolution == old(resolution) + [Single(key, cb)]
      ensures messages == old(messages) && updates == old(updates) && deletes == old(deletes)
    {
      resolution := resolution + [Single(key, cb)];
    }

    /** dataResolutionQueue.enqueueMultiple: an item needs at least one key. */
    method EnqueueMultiple(keys: seq<DataKey>, cb: Callback) returns (r: Outcome)
      modifies this
      ensures r.Pass? <==> |keys| > 0
      ensures r.Fail? ==> r.error == NoElements("objectKeys")
      ensures resolution == if r.Pass? then old(resolution) + [Multi(keys, cb)] else old(resolution)
      ensures messages == old(messages) && updates == old(updates) && deletes == old(deletes)
    {
      r := Guards.RequiresAtLeastOne("objectKeys", Some(keys));
      if r.Pass? {
        resolution := resolution + [Multi(keys, cb)];
      }
    }

    /** messageFiringQueue.enqueue. */
    method EnqueueMessage(instanceKey: MessageInstanceKey, event: Handle)
      modifies this
      ensures messages == old(messages) + [Delivery(MessageInstanceKeyValue(instanceKey), event)]
      ensures resolution == old(resolution) && updates == old(updates) && deletes == old(deletes)
    {
      messages := messages + [Delivery(MessageInstanceKeyValue(instanceKey), event)];
    }

    /** dataUpdatedFiringQueue.enqueue. */
    method EnqueueUpdate(target: Handle, deleted: bool)
      modifies this
      ensures updates == old(updates) + [DataUpdatedEvent(target, deleted)]
      ensures resolution == old(resolution) && messages == old(messages) && deletes == old(deletes)
    {
      updates := updates + [DataUpdatedEvent(target, deleted)];
    }

    /** dataDeleteQueue.enqueue. */
    method EnqueueDelete(key: DataKey)
      modifies this
      ensures deletes == old(deletes) + [key]
      ensures resolution == old(resolution) && messages == old(messages) && updates == old(updates)
    {
      deletes := deletes + [key];
    }

    /** One round of the resolution loop takes the queue as it stands and leaves it empty. */
    method TakeResolutions() returns (round: seq<ResolutionItem>)
      modifies this
      ensures round == old(resolution) && resolution == []
      ensures messages == old(messages) && updates == old(updates) && deletes == old(deletes)
    {
      round := resolution;
      resolution := [];
    }

    /**
     * messageFiringQueue.applyOnceAsync: each entry in enqueue order, each of
     * its listeners in registration order, one after the other; the queue is
     * empty afterwards.
     */
    method FireMessages(heap: Heap, mreg: MessageRegistry)
      modifies this, heap
      ensures heap.trace == old(heap.trace) + MessageTrace(old(messages), mreg.listeners.entries)
      ensures heap.objects == old(heap.objects)
      ensures messages == []
      ensures resolution == old(resolution) && updates == old(updates) && deletes == old(deletes)
    {
      var queue := messages;
      var i := 0;
      while i < |queue|
        invariant 0 <= i <= |queue|
        invariant heap.trace == old(heap.trace) + MessageTrace(queue[..i], mreg.listeners.entries)
        invariant heap.objects == old(heap.objects)
        invariant messages == queue
        invariant resolution == old(resolution) && updates == old(updates) && deletes == old(deletes)
      {
        FireEvent(heap, mreg, queue[i]);
        MessageTraceStep(queue, i, mreg.listeners.entries);
        i := i + 1;
      }
      assert queue[..i] == queue;
      messages := [];
    }

    /** One queued event: its listeners, if it has a list, each in turn. */
    static method FireEvent(heap: Heap, mreg: MessageRegistry, d: Delivery)
      modifies heap
      ensures heap.trace == old(heap.trace) + EventCalls(d, mreg.listeners.entries)
      ensures heap.objects == old(heap.objects)
    {
      var listeners := mreg.listeners.TryGet(d.key);
      if listeners.Some? {
        heap.FireAll(Deliveries(listeners.value, d.event));
      }
    }

    /**
     * dataUpdatedFiringQueue.applyOnceAsync: like the message queue, except
     * that an object with listeners must be known to the registry; the first
     * that is not stops the firing and leaves the queue as it was.
     */
    method FireUpdates(heap: Heap, dreg: DataRegistry) returns (r: Outcome)
      modifies this, heap
      ensures var n := FiredCount(old(updates), dreg.updatedListeners, dreg.objectKeys);
        (r.Pass? <==> n == |old(updates)|) &&
        heap.trace == old(heap.trace) + UpdateTrace(old(updates)[..n], dreg.updatedListeners)
      ensures r.Fail? ==> r.error == UnknownInstance
      ensures updates == if r.Pass? then [] else old(updates)
      ensures heap.objects == old(heap.objects)
      ensures resolution == old(resolution) && messages == old(messages) && deletes == old(deletes)
    {
      r := FireQueue(heap, dreg, updates);
      if r.Pass? {
        updates := [];
      }
    }

    /** The firing loop over a copy of the queue. */
    static method FireQueue(heap: Heap, dreg: DataRegistry, queue: seq<DataUpdatedEvent>) returns (r: Outcome)
      modifies heap
      ensures var n := FiredCount(queue, dreg.updatedListeners, dreg.objectKeys);
        (r.Pass? <==> n == |queue|) &&
        heap.trace == old(heap.trace) + UpdateTrace(queue[..n], dreg.updatedListeners)
      ensures r.Fail? ==> r.error == UnknownInstance
      ensures heap.objects == old(heap.objects)
    {
      ghost var listeners, keys := dreg.updatedListeners, dreg.objectKeys;
      ghost var n := FiredCount(queue, listeners, keys);
      ghost var start := heap.trace;
      var i := 0;
      while i < |queue|
        invariant 0 <= i <= n
        invariant heap.trace == start + UpdateTrace(queue[..i], listeners)
        invariant heap.objects == old(heap.objects)
      {
        var fired := FireUpdate(heap, dreg, queue[i]);
        if fired.Fail? {
          assert i == n;
          return fired;
        }
        assert i < n;
        UpdateTraceNext(queue, i, listeners);
        AppendAssoc(start, UpdateTrace(queue[..i], listeners), UpdateCalls(queue[i], listeners));
        i := i + 1;
      }
      assert queue[..i] == queue;
      r := Pass;
    }

    /** One queued update: its listeners, if it has a list, once the registry knows its object. */
    static method FireUpdate(heap: Heap, dreg: DataRegistry, e: DataUpdatedEvent) returns (r: Outcome)
      modifies heap
      ensures r.Fail? <==> Unknown(e, dreg.updatedListeners, dreg.objectKeys)
      ensures r.Fail? ==> r.error == UnknownInstance && heap.trace == old(heap.trace)
      ensures r.Pass? ==> heap.trace == old(heap.trace) + UpdateCalls(e, dreg.updatedListeners)
      ensures heap.objects == old(heap.objects)
    {
      var listeners := dreg.TryGetUpdatedListeners(e.target);
      if listeners.Some? {
        var key := dreg.GetDataKey(e.target);
        if key.Err? {
          return Fail(key.error);
        }
        heap.FireAll(Notifications(listeners.value, e));
      }
      r := Pass;
    }

    /**
     * dataDeleteQueue.applyOnce: each key is removed from the registry in
     * enqueue order, and the queue is empty afterwards.
     */
    method ApplyDeletes(dreg: DataRegistry)
      modifies this, dreg, dreg.objects
      ensures dreg.objects.entries == old(dreg.objects.entries) - KeyValues(old(deletes))
      ensures forall k :: k in old(deletes) ==> dreg.TryGetInstance(k) == None
      ensures dreg.objectKeys.Keys <= old(dreg.objectKeys).Keys && dreg.versions.Keys <= old(dreg.versions).Keys
      ensures forall h :: h in dreg.objectKeys ==> dreg.objectKeys[h] == old(dreg.objectKeys)[h]
      ensures dreg.updatedListeners.Keys <= old(dreg.updatedListeners).Keys
      ensures dreg.ctorToClassKey == old(dreg.ctorToClassKey)
      ensures old(dreg.Valid()) ==> dreg.Valid()
      ensures deletes == []
      ensures resolution == old(resolution) && messages == old(messages) && updates == old(updates)
    {
      var queue := deletes;
      var i := 0;
      while i < |queue|
        invariant 0 <= i <= |queue|
        invariant dreg.objects.entries == old(dreg.objects.entries) - KeyValues(queue[..i])
        invariant dreg.objectKeys.Keys <= old(dreg.objectKeys).Keys && dreg.versions.Keys <= old(dreg.versions).Keys
        invariant forall h :: h in dreg.objectKeys ==> dreg.objectKeys[h] == old(dreg.objectKeys)[h]
        invariant dreg.updatedListeners.Keys <= old(dreg.updatedListeners).Keys
        invariant dreg.ctorToClassKey == old(dreg.ctorToClassKey)
        invariant old(dreg.Valid()) ==> dreg.Valid()
        invariant deletes == queue
        invariant resolution == old(resolution) && messages == old(messages) && updates == old(updates)
      {
        dreg.Remove(queue[i]);
        KeyValuesStep(queue, i);
        RemoveOneMore(old(dreg.objects.entries), KeyValues(queue[..i]), DataKeyValue(queue[i]));
        i := i + 1;
      }
      assert queue[..i] == queue;
      deletes := [];
    }
  }
}
