/**
 * The client object behind the generated warp clients: registering warps
 * and classes, and calling a service method. A call's reply may bundle
 * events and data updates; every event is handled in full, each with a
 * tracker of its own, before the updates are merged into one shared
 * tracker, and that tracker is applied exactly once before the return
 * value is handed back.
 */
module Client {
  import opened Wrappers
  import opened Unsigned
  import opened Keys
  import opened JsHeap
  import opened Wire
  import opened Registry
  import opened Responses
  import opened Tracking
  import opened ModelTypes
  import opened Codec
  import opened Decoding
  import opened Requests
  import opened River
  import opened UpdateHandling
  import opened Merging
  import opened Sync

  // ---------------------------------------------------------------------
  // Registration.

  /** The warp key named by a decimal id and a decimal version, both positive. */
  function ParseWarpKey(warpId: string, warpVersion: string): (r: Result<WarpKey>)
    ensures r.Ok? ==>
      FromString(warpId).Ok? && FromString(warpVersion).Ok? &&
      r.value == WarpKey(FromString(warpId).value.value, FromString(warpVersion).value.value) &&
      r.value.warpId > 0 && r.value.warpVersion > 0
    ensures FromString(warpId).Err? ==> r == Err(FromString(warpId).error)
  {
    match FromString(warpId)
    case Err(e) => Err(e)
    case Ok(id) =>
      match FromString(warpVersion)
      case Err(e) => Err(e)
      case Ok(version) => NewWarpKey(Some(id), Some(version))
  }

  /** Every warp key is named by its own id and version written in decimal. */
  lemma ParseWarpKeyRoundTrip(k: WarpKey)
    requires k.warpId > 0 && k.warpVersion > 0
    ensures ParseWarpKey(Decimal(k.warpId), Decimal(k.warpVersion)) == Ok(k)
  {
    StringRoundTrip(Unsigned(k.warpId));
    StringRoundTrip(Unsigned(k.warpVersion));
  }

  /**
   * registerWarp: the key is built from the decimal id and version, then
   * registered with the warp's name and user key, and returned.
   */
  method RegisterWarp(wreg: WarpRegistry, name: string, userKey: string, warpId: string, warpVersion: string)
    returns (r: Result<WarpKey>)
    requires wreg.Valid()
    modifies wreg, wreg.registrations
    ensures wreg.Valid()
    ensures ParseWarpKey(warpId, warpVersion).Err? ==>
      r == Err(ParseWarpKey(warpId, warpVersion).error) && wreg.registrations.entries == old(wreg.registrations.entries)
    ensures r.Ok? ==>
      ParseWarpKey(warpId, warpVersion) == Ok(r.value) && name != "" && userKey != "" &&
      !old(wreg.IsRegistered(r.value)) &&
      wreg.registrations.entries == old(wreg.registrations.entries)[WarpKeyValue(r.value) := WarpRegistration(name, r.value, userKey)] &&
      wreg.TryGetWarpKeyByWarpId(Unsigned(r.value.warpId)) == Some(r.value)
    ensures r.Err? ==> wreg.registrations.entries == old(wreg.registrations.entries)
  {
    var key := ParseWarpKey(warpId, warpVersion);
    if key.Err? {
      return Err(key.error);
    }
    var reg := NewWarpRegistration(name, key.value, userKey);
    if reg.Err? {
      return Err(reg.error);
    }
    var done := wreg.Register(reg.value);
    if done.Fail? {
      return Err(done.error);
    }
    r := Ok(key.value);
  }

  /** registerService: the class key needs a non-zero class id, the registration a name. */
  method RegisterService(sreg: ServiceRegistry, name: string, ctor: Ctor, warpKey: WarpKey, classId: int) returns (r: Outcome)
    requires sreg.Valid()
    modifies sreg, sreg.classes
    ensures sreg.Valid()
    ensures r.Pass? <==>
      classId != 0 && name != "" && ClassKeyValue(ServiceClass, ClassKey(warpKey, classId)) !in old(sreg.classes.entries)
    ensures r.Pass? ==> sreg.GetClassKey(ctor) == Ok(ClassKey(warpKey, classId))
    ensures r.Fail? ==> sreg.classes.entries == old(sreg.classes.entries) && sreg.ctorToClassKey == old(sreg.ctorToClassKey)
  {
    var classKey := NewClassKey(warpKey, classId);
    if classKey.Err? {
      return Fail(classKey.error);
    }
    var reg := NewServiceClassRegistration(classKey.value, ctor, name);
    if reg.Err? {
      return Fail(reg.error);
    }
    r := sreg.Register(reg.value);
  }

  /** registerData: the same rules for a Data class. */
  method RegisterData(dreg: DataRegistry, name: string, ctor: Ctor, warpKey: WarpKey, classId: int) returns (r: Outcome)
    requires dreg.Valid()
    modifies dreg, dreg.classes
    ensures dreg.Valid()
    ensures r.Pass? <==>
      classId != 0 && name != "" && ClassKeyValue(DataClass, ClassKey(warpKey, classId)) !in old(dreg.classes.entries)
    ensures r.Pass? ==> dreg.GetClassKey(ctor) == Ok(ClassKey(warpKey, classId))
    ensures r.Fail? ==> dreg.classes.entries == old(dreg.classes.entries) && dreg.ctorToClassKey == old(dreg.ctorToClassKey)
    ensures dreg.versions == old(dreg.versions) && dreg.objectKeys == old(dreg.objectKeys)
  {
    var classKey := NewClassKey(warpKey, classId);
    if classKey.Err? {
      return Fail(classKey.error);
    }
    var reg := NewDataClassRegistration(classKey.value, ctor, name);
    if reg.Err? {
      return Fail(reg.error);
    }
    r := dreg.Register(reg.value);
  }

  /** registerMessage: the same rules for a Message class. */
  method RegisterMessage(mreg: MessageRegistry, name: string, ctor: Ctor, warpKey: WarpKey, classId: int) returns (r: Outcome)
    requires mreg.Valid()
    modifies mreg, mreg.classes
    ensures mreg.Valid()
    ensures r.Pass? <==>
      classId != 0 && name != "" && ClassKeyValue(MessageClass, ClassKey(warpKey, classId)) !in old(mreg.classes.entries)
    ensures r.Pass? ==> mreg.GetClassKey(ctor) == Ok(ClassKey(warpKey, classId))
    ensures r.Fail? ==> mreg.classes.entries == old(mreg.classes.entries) && mreg.ctorToClassKey == old(mreg.ctorToClassKey)
  {
    var classKey := NewClassKey(warpKey, classId);
    if classKey.Err? {
      return Fail(classKey.error);
    }
    var reg := NewMessageClassRegistration(classKey.value, ctor, name);
    if reg.Err? {
      return Fail(reg.error);
    }
    r := mreg.Register(reg.value);
  }

  // ---------------------------------------------------------------------
  // The messages bundled with a reply.

  /** A reply's bundled messages sorted by kind, each kind in reply order. */
  datatype Companions = Companions(events: seq<UserMessage>, updates: seq<UserMessage>)

  /**
   * The sorting loop of callServiceMethodAsync: events to one list,
   * updates to the other; a message of no known kind is invalid data.
   */
  function Split(ms: seq<UserMessage>): (r: Result<Companions>)
    ensures r.Ok? <==> forall i :: 0 <= i < |ms| ==> !ms[i].NoMessage?
    ensures r.Err? ==> r.error == InvalidData
    ensures r.Ok? ==>
      (forall i :: 0 <= i < |r.value.events| ==> r.value.events[i].MessageMessage?) &&
      (forall i :: 0 <= i < |r.value.updates| ==> r.value.updates[i].DataUpdateMessage?)
  {
    if |ms| == 0 then Ok(Companions([], []))
    else
      var last := ms[|ms| - 1];
      assert ms == ms[..|ms| - 1] + [last];
      match Split(ms[..|ms| - 1])
      case Err(e) => Err(e)
      case Ok(c) =>
        match last
        case DataUpdateMessage(_) => Ok(Companions(c.events, c.updates + [last]))
        case MessageMessage(_, _) => Ok(Companions(c.events + [last], c.updates))
        case NoMessage => Err(InvalidData)
  }

  /** Sorting loses and invents nothing: the two lists hold exactly the reply's messages. */
  lemma {:induction false} SplitPartitions(ms: seq<UserMessage>)
    requires Split(ms).Ok?
    ensures multiset(Split(ms).value.events) + multiset(Split(ms).value.updates) == multiset(ms)
    decreases |ms|
  {
    if |ms| > 0 {
      var init := ms[..|ms| - 1];
      assert ms == init + [ms[|ms| - 1]];
      SplitPartitions(init);
    }
  }

  /** Sorting well-formed messages gives well-formed events and updates. */
  lemma {:induction false} SplitWellFormed(ms: seq<UserMessage>)
    requires forall i :: 0 <= i < |ms| ==> MessageWellFormed(ms[i])
    requires Split(ms).Ok?
    ensures AllEvents(Split(ms).value.events)
    ensures AllUpdates(Split(ms).value.updates)
    decreases |ms|
  {
    if |ms| > 0 {
      var init := ms[..|ms| - 1];
      assert forall i :: 0 <= i < |init| ==> init[i] == ms[i];
      SplitWellFormed(init);
    }
  }

  /**
   * Sorting keeps order: the events of two runs of messages are the events
   * of the first run followed by those of the second, and so are the updates.
   */
  lemma {:induction false} SplitAppend(a: seq<UserMessage>, b: seq<UserMessage>)
    requires Split(a + b).Ok?
    ensures Split(a).Ok? && Split(b).Ok?
    ensures Split(a + b).value == Companions(Split(a).value.events + Split(b).value.events,
                                             Split(a).value.updates + Split(b).value.updates)
    decreases |b|
  {
    if |b| == 0 {
      assert a + b == a;
    } else {
      var b' := b[..|b| - 1];
      assert (a + b)[..|a + b| - 1] == a + b';
      assert b[..|b| - 1] == b';
      assert forall i :: 0 <= i < |a + b'| ==> (a + b')[i] == (a + b)[i];
      SplitAppend(a, b');
    }
  }

  /** The sorting loop itself. */
  method SplitMessages(ms: seq<UserMessage>) returns (r: Result<Companions>)
    ensures r == Split(ms)
  {
    var events: seq<UserMessage> := [];
    var updates: seq<UserMessage> := [];
    for i := 0 to |ms|
      invariant Split(ms[..i]) == Ok(Companions(events, updates))
    {
      assert ms[..i + 1][..i] == ms[..i];
      match ms[i]
      case DataUpdateMessage(_) =>
        updates := updates + [ms[i]];
      case MessageMessage(_, _) =>
        events := events + [ms[i]];
      case NoMessage =>
        assert ms[..|ms|] == ms;
        SplitPrefixErr(ms, i + 1);
        return Err(InvalidData);
    }
    assert ms[..|ms|] == ms;
    r := Ok(Companions(events, updates));
  }

  /** A message of no known kind fails every longer run the same way. */
  lemma SplitPrefixErr(ms: seq<UserMessage>, n: nat)
    requires n <= |ms| && Split(ms[..n]).Err?
    ensures Split(ms) == Err(InvalidData)
  {
  }

  // ---------------------------------------------------------------------
  // callServiceMethodAsync.

  /** The service key of a service object: its registered class and its primary key. */
  function ServiceKeyOf(sreg: ServiceRegistry, o: Obj): (r: Result<ServiceKey>)
    reads sreg, sreg.classes
    ensures r.Ok? <==>
      (o.DataObj? || o.ServiceObj? || o.MessageObj?) && sreg.IsRegistered(o.ctor) &&
      (o.DataObj? || o.ServiceObj?) && PrimaryKey(o) != ""
    ensures r.Ok? ==> r.value == ServiceKey(sreg.ctorToClassKey[o.ctor], PrimaryKey(o))
    ensures !(o.DataObj? || o.ServiceObj? || o.MessageObj?) ==> r == Err(NotRegistered)
  {
    if !(o.DataObj? || o.ServiceObj? || o.MessageObj?) then Err(NotRegistered)
    else
      match sreg.GetClassKey(o.ctor)
      case Err(e) => Err(e)
      case Ok(classKey) =>
        NewServiceKey(classKey, if o.MessageObj? then "" else PrimaryKey(o))
  }

  /** What encoding reads from the registries and the heap. */
  function EnvOf(heap: Heap, dreg: DataRegistry, sreg: ServiceRegistry): Env
    reads heap, dreg, sreg
  {
    Env(heap.objects, dreg.ctorToClassKey, sreg.ctorToClassKey)
  }

  /** An OK reply to a service call: the service's class, the return value and the bundled messages. */
  datatype Answer = Answer(classKey: ClassKey, returnValue: Option<Value>, messages: seq<UserMessage>)

  /** The bundled messages of a read response; none at all reads as an empty list. */
  function MessagesOf(u: UserResponse): seq<UserMessage>
  {
    if u.messages.Some? then u.messages.value else []
  }

  /**
   * The first half of callServiceMethodAsync: service and method id are
   * checked, the service's key is built, and the call request goes over
   * the warp's connection once. A reply that is not OK fails with its
   * error; nothing in the heap changes.
   */
  method Invoke(heap: Heap, dreg: DataRegistry, sreg: ServiceRegistry, wreg: WarpRegistry, platform: Platform,
                logContext: string, service: Option<Handle>, methodId: int, args: seq<Native>, fuel: nat)
    returns (r: Result<Answer>)
    requires wreg.Valid() && platform.Valid()
    requires service.Some? ==> service.value < |heap.objects|
    modifies wreg.riverClients, platform
    ensures wreg.Valid() && platform.Valid()
    ensures service.None? ==> r == Err(Falsy("service")) && platform.sent == old(platform.sent)
    ensures service.Some? && methodId == 0 ==> r == Err(Falsy("methodId")) && platform.sent == old(platform.sent)
    ensures service.Some? && methodId != 0 && ServiceKeyOf(sreg, heap.objects[service.value]).Err? ==>
      r == Err(ServiceKeyOf(sreg, heap.objects[service.value]).error) && platform.sent == old(platform.sent)
    ensures r.Ok? ==>
      service.Some? && ServiceKeyOf(sreg, heap.objects[service.value]).Ok? &&
      var serviceKey := ServiceKeyOf(sreg, heap.objects[service.value]).value;
      r.value.classKey == serviceKey.classKey &&
      |platform.sent| == |old(platform.sent)| + 1 &&
      var body := platform.sent[|old(platform.sent)|].1.body;
      body.CallServiceMethodRequest? && body.methodId == methodId &&
      body.classId == serviceKey.classKey.classId && body.primaryKey == serviceKey.primaryKey
    ensures r.Ok? ==> forall i :: 0 <= i < |r.value.messages| ==> MessageWellFormed(r.value.messages[i])
  {
    if service.None? {
      return Err(Falsy("service"));
    }
    if methodId == 0 {
      return Err(Falsy("methodId"));
    }
    var serviceKey := ServiceKeyOf(sreg, heap.objects[service.value]);
    if serviceKey.Err? {
      return Err(serviceKey.error);
    }
    var client := GetRiverClient(wreg, platform, serviceKey.value.classKey.warpKey);
    if client.Err? {
      return Err(client.error);
    }
    var response := CallOnRiver(platform, client.value, EnvOf(heap, dreg, sreg), dreg.versions, logContext,
                                serviceKey.value, methodId, args, fuel);
    if response.Err? {
      return Err(response.error);
    }
    var u := response.value;
    if u.response.None? {
      return Err(GetErrorForNotOkResponse(u));
    }
    r := Ok(Answer(serviceKey.value.classKey, u.response.value.returnValue, MessagesOf(u)));
  }

  /**
   * RiverClient.callServiceMethodAsync: the call request is built, sent
   * once over the client's connection, and its reply read as a service
   * call's, bundled messages allowed.
   */
  method CallOnRiver(platform: Platform, client: RiverClient, env: Env, versions: map<Handle, Unsigned>,
                     logContext: string, serviceKey: ServiceKey, methodId: int, args: seq<Native>, fuel: nat)
    returns (r: Result<UserResponse>)
    requires platform.Valid()
    modifies platform
    ensures platform.Valid()
    ensures CallServiceMethodSpec(env, versions, logContext, serviceKey, methodId, args, fuel).Err? ==>
      r == Err(CallServiceMethodSpec(env, versions, logContext, serviceKey, methodId, args, fuel).error) &&
      platform.sent == old(platform.sent) && platform.replies == old(platform.replies)
    ensures |platform.replies| <= |old(platform.replies)|
    ensures r.Ok? ==>
      var request := CallServiceMethodSpec(env, versions, logContext, serviceKey, methodId, args, fuel);
      request.Ok? && |old(platform.replies)| > 0 &&
      platform.sent == old(platform.sent) + [(client.connection, request.value)] &&
      r == ReadResponse(old(platform.replies)[0], CallServiceMethodKind, true) &&
      (r.value.response.Some? ==> r.value.response.value.CallServiceMethodBody?) &&
      ResponseWellFormed(r.value)
  {
    var request := CreateCallServiceMethodRequest(env, versions, logContext, serviceKey, methodId, args, fuel);
    if request.Err? {
      return Err(request.error);
    }
    r := Exchange(platform, client, request.value);
  }

  /**
   * What handling one event left behind: its event object, the chain of
   * stores its bundled deltas were merged through, and what its tracker
   * notified to which listeners.
   */
  datatype Handled = Handled(instance: Handle, stores: seq<Store>, notified: seq<DataUpdatedEvent>,
                             heard: map<Handle, seq<ListenerId>>)

  /** Every message is an event whose instance key can be built. */
  predicate Keyed(warpKey: WarpKey, events: seq<UserMessage>)
  {
    forall i :: 0 <= i < |events| ==>
      events[i].MessageMessage? && events[i].event.Some? && EventInstanceKey(warpKey, events[i].event.value).Ok?
  }

  /**
   * The listener calls of one handled event: the listeners of its
   * instance key with the event object, then its tracker's update
   * listeners.
   */
  function DeliveryCalls(warpKey: WarpKey, ev: MessageEvent, h: Handled, listeners: map<string, seq<ListenerId>>): seq<Fired>
    requires EventInstanceKey(warpKey, ev).Ok?
  {
    EventCalls(Delivery(MessageInstanceKeyValue(EventInstanceKey(warpKey, ev).value), h.instance), listeners) +
    UpdateTrace(h.notified, h.heard)
  }

  /** The listener calls of the handled events, one event after the other. */
  function EventsCalls(warpKey: WarpKey, events: seq<UserMessage>, handled: seq<Handled>,
                       listeners: map<string, seq<ListenerId>>): seq<Fired>
    requires Keyed(warpKey, events) && |handled| == |events|
    decreases |events|
  {
    if events == [] then []
    else
      var n := |events| - 1;
      EventsCalls(warpKey, events[..n], handled[..n], listeners) + DeliveryCalls(warpKey, events[n].event.value, handled[n], listeners)
  }

  /** Every handled event's bundled deltas passed, merged in order through its own chain of stores. */
  predicate EventsMerged(sreg: ServiceRegistry, logContext: string, warpKey: WarpKey, events: seq<UserMessage>,
                         handled: seq<Handled>, fuel: nat)
    reads sreg, sreg.classes
  {
    |handled| == |events| &&
    forall i :: 0 <= i < |events| ==>
      events[i].MessageMessage? && MergedChain(sreg, logContext, warpKey, events[i].deltas, fuel, handled[i].stores)
  }

  /**
   * Every bundled event, in reply order, handled in full by
   * handleMessageMessageWithTrackerAsync, each with a tracker of its own;
   * the first failure stops the loop. On success every event had its
   * instance key, its deltas merged, and `calls`, the listener calls
   * made, are each event's own listener calls and then its update
   * listener calls, event after event.
   */
  method HandleEvents(heap: Heap, dreg: DataRegistry, sreg: ServiceRegistry, mreg: MessageRegistry,
                      wreg: WarpRegistry, platform: Platform, logContext: string, warpKey: WarpKey,
                      events: seq<UserMessage>, fuel: nat)
    returns (r: Outcome, ghost calls: seq<Fired>, ghost handled: seq<Handled>)
    requires AllEvents(events)
    requires Ready(heap, dreg, wreg, platform)
    modifies heap, dreg, dreg.objects, wreg.riverClients, platform
    ensures Ready(heap, dreg, wreg, platform)
    ensures unchanged(sreg, sreg.classes, mreg, mreg.listeners)
    ensures events == [] ==> r.Pass? && calls == []
    ensures r.Pass? ==>
      Keyed(warpKey, events) && EventsMerged(sreg, logContext, warpKey, events, handled, fuel) &&
      calls == EventsCalls(warpKey, events, handled, mreg.listeners.entries) &&
      heap.trace == old(heap.trace) + calls
  {
    calls := [];
    handled := [];
    var i := 0;
    while i < |events|
      invariant 0 <= i <= |events|
      invariant Ready(heap, dreg, wreg, platform)
      invariant unchanged(sreg, sreg.classes, mreg, mreg.listeners)
      invariant Keyed(warpKey, events[..i]) && EventsMerged(sreg, logContext, warpKey, events[..i], handled, fuel)
      invariant calls == EventsCalls(warpKey, events[..i], handled, mreg.listeners.entries)
      invariant heap.trace == old(heap.trace) + calls
    {
      var done;
      ghost var h;
      done, h := HandleOneEvent(heap, dreg, sreg, mreg, wreg, platform, logContext, warpKey, events[i], fuel);
      if done.Fail? {
        return done, calls, handled;
      }
      Regroup(old(heap.trace), calls, DeliveryCalls(warpKey, events[i].event.value, h, mreg.listeners.entries));
      EventsSnoc(sreg, logContext, warpKey, events, handled, fuel, i, h, mreg.listeners.entries);
      calls := calls + DeliveryCalls(warpKey, events[i].event.value, h, mreg.listeners.entries);
      handled := handled + [h];
      i := i + 1;
    }
    assert events[..i] == events;
    r := Pass;
  }

  /** One more handled event extends the keys, the merges and the listener calls. */
  lemma EventsSnoc(sreg: ServiceRegistry, logContext: string, warpKey: WarpKey, events: seq<UserMessage>,
                   handled: seq<Handled>, fuel: nat, i: nat, h: Handled, listeners: map<string, seq<ListenerId>>)
    requires i < |events| && Keyed(warpKey, events[..i]) && EventsMerged(sreg, logContext, warpKey, events[..i], handled, fuel)
    requires events[i].MessageMessage? && events[i].event.Some? && EventInstanceKey(warpKey, events[i].event.value).Ok?
    requires MergedChain(sreg, logContext, warpKey, events[i].deltas, fuel, h.stores)
    ensures Keyed(warpKey, events[..i + 1]) && EventsMerged(sreg, logContext, warpKey, events[..i + 1], handled + [h], fuel)
    ensures EventsCalls(warpKey, events[..i + 1], handled + [h], listeners) ==
            EventsCalls(warpKey, events[..i], handled, listeners) + DeliveryCalls(warpKey, events[i].event.value, h, listeners)
  {
    assert events[..i + 1][..i] == events[..i] && events[..i + 1][i] == events[i];
    assert (handled + [h])[..i] == handled;
  }

  /** Every message is a well-formed event. */
  predicate AllEvents(events: seq<UserMessage>)
  {
    forall i :: 0 <= i < |events| ==> events[i].MessageMessage? && MessageWellFormed(events[i])
  }

  /** Every message is a well-formed data update. */
  predicate AllUpdates(updates: seq<UserMessage>)
  {
    forall i :: 0 <= i < |updates| ==> updates[i].DataUpdateMessage? && MessageWellFormed(updates[i])
  }

  /** One bundled event handled by handleMessageMessageWithTrackerAsync, with what it left behind. */
  method HandleOneEvent(heap: Heap, dreg: DataRegistry, sreg: ServiceRegistry, mreg: MessageRegistry,
                        wreg: WarpRegistry, platform: Platform, logContext: string, warpKey: WarpKey,
                        m: UserMessage, fuel: nat) returns (r: Outcome, ghost h: Handled)
    requires m.MessageMessage? && MessageWellFormed(m)
    requires Ready(heap, dreg, wreg, platform)
    modifies heap, dreg, dreg.objects, wreg.riverClients, platform
    ensures Ready(heap, dreg, wreg, platform)
    ensures unchanged(sreg, sreg.classes, mreg, mreg.listeners)
    ensures r.Pass? ==>
      m.event.Some? && EventInstanceKey(warpKey, m.event.value).Ok? &&
      MergedChain(sreg, logContext, warpKey, m.deltas, fuel, h.stores) &&
      heap.trace == old(heap.trace) + DeliveryCalls(warpKey, m.event.value, h, mreg.listeners.entries)
  {
    var instance;
    ghost var stores, notified, heard;
    r, instance, stores, notified, heard := HandleEvent(heap, dreg, sreg, mreg, wreg, platform, logContext, warpKey, m.event, m.deltas, fuel);
    h := Handled(instance, stores, notified, heard);
    if r.Pass? {
      Regroup(old(heap.trace), EventCalls(Delivery(MessageInstanceKeyValue(EventInstanceKey(warpKey, m.event.value).value), instance),
              mreg.listeners.entries), UpdateTrace(notified, heard));
    }
  }

  /** Listener calls made one after another, regrouped. */
  lemma Regroup(a: seq<Fired>, b: seq<Fired>, c: seq<Fired>)
    ensures (a + b) + c == a + (b + c)
  {
  }

  /**
   * Every bundled update merged, in reply order, into the one tracker
   * they share; nothing is applied yet, so no listener is called. On
   * success the deltas of all the updates, one message after the other,
   * were merged in order through the chain `stores`, from the old store
   * to the new one.
   */
  method MergeUpdates(heap: Heap, tracker: Tracker, dreg: DataRegistry, sreg: ServiceRegistry,
                      logContext: string, warpKey: WarpKey, updates: seq<UserMessage>, fuel: nat)
    returns (r: Outcome, ghost stores: seq<Store>)
    requires AllUpdates(updates)
    requires Coherent(heap, dreg)
    modifies heap, tracker, dreg, dreg.objects
    ensures Coherent(heap, dreg)
    ensures heap.trace == old(heap.trace) && tracker.messages == old(tracker.messages)
    ensures unchanged(sreg, sreg.classes)
    ensures r.Pass? ==>
      MergedChain(sreg, logContext, warpKey, AllDeltas(updates), fuel, stores) &&
      stores[0] == old(StoreOf(heap, tracker, dreg)) && stores[|AllDeltas(updates)|] == StoreOf(heap, tracker, dreg)
    ensures r.Pass? ==> forall i :: 0 <= i < |updates| ==> PresentUpTo(updates[i].deltas, |updates[i].deltas|)
  {
    stores := [StoreOf(heap, tracker, dreg)];
    var i := 0;
    while i < |updates|
      invariant 0 <= i <= |updates|
      invariant Coherent(heap, dreg)
      invariant heap.trace == old(heap.trace) && tracker.messages == old(tracker.messages)
      invariant forall j :: 0 <= j < i ==> PresentUpTo(updates[j].deltas, |updates[j].deltas|)
      invariant MergedChain(sreg, logContext, warpKey, AllDeltas(updates[..i]), fuel, stores)
      invariant stores[0] == old(StoreOf(heap, tracker, dreg)) && stores[|AllDeltas(updates[..i])|] == StoreOf(heap, tracker, dreg)
    {
      var merged;
      ghost var count, chain;
      merged, count, chain := HandleDataUpdate(heap, tracker, dreg, sreg, logContext, warpKey, updates[i].deltas, fuel);
      if merged.Fail? {
        return merged, stores;
      }
      assert updates[i].deltas[..count] == updates[i].deltas;
      ChainsJoin(sreg, logContext, warpKey, AllDeltas(updates[..i]), updates[i].deltas, fuel, stores, chain);
      assert updates[..i + 1][..i] == updates[..i];
      stores := stores + chain[1..];
      i := i + 1;
    }
    assert updates[..i] == updates;
    r := Pass;
  }

  /** The heap, the registries and the platform as every operation expects to find them. */
  ghost predicate Ready(heap: Heap, dreg: DataRegistry, wreg: WarpRegistry, platform: Platform)
    reads heap, dreg, dreg.classes, dreg.objects, wreg, wreg.registrations, wreg.riverClients, platform
  {
    Coherent(heap, dreg) && wreg.Valid() && platform.Valid()
  }

  /**
   * The bundled messages of a call: sorted, every event handled, then
   * every update merged into the call's tracker. The tracker holds no
   * message, and the only listeners called are the events' own, event
   * after event; the updates' deltas are merged in order through the
   * chain `stores`, which starts from the tracker's queues as they were.
   */
  method HandleCompanions(heap: Heap, tracker: Tracker, dreg: DataRegistry, sreg: ServiceRegistry,
                          mreg: MessageRegistry, wreg: WarpRegistry, platform: Platform, logContext: string,
                          warpKey: WarpKey, messages: seq<UserMessage>, fuel: nat)
    returns (r: Outcome, ghost eventCalls: seq<Fired>, ghost handled: seq<Handled>, ghost stores: seq<Store>)
    requires forall i :: 0 <= i < |messages| ==> MessageWellFormed(messages[i])
    requires Ready(heap, dreg, wreg, platform)
    modifies heap, tracker, dreg, dreg.objects, wreg.riverClients, platform
    ensures Ready(heap, dreg, wreg, platform)
    ensures Split(messages).Err? ==> r == Fail(InvalidData) && heap.trace == old(heap.trace)
    ensures r.Pass? ==>
      Split(messages).Ok? &&
      var sorted := Split(messages).value;
      Keyed(warpKey, sorted.events) && EventsMerged(sreg, logContext, warpKey, sorted.events, handled, fuel) &&
      eventCalls == EventsCalls(warpKey, sorted.events, handled, mreg.listeners.entries) &&
      heap.trace == old(heap.trace) + eventCalls && tracker.messages == old(tracker.messages) &&
      MergedChain(sreg, logContext, warpKey, AllDeltas(sorted.updates), fuel, stores) &&
      stores[0].pending == old(tracker.resolution) && stores[0].updates == old(tracker.updates) &&
      stores[0].deletes == old(tracker.deletes) && stores[|AllDeltas(sorted.updates)|] == StoreOf(heap, tracker, dreg)
  {
    eventCalls := [];
    handled := [];
    stores := [];
    var sorted := SplitMessages(messages);
    if sorted.Err? {
      return Fail(sorted.error), eventCalls, handled, stores;
    }
    SplitWellFormed(messages);
    r, eventCalls, handled, stores := HandleSorted(heap, tracker, dreg, sreg, mreg, wreg, platform, logContext, warpKey,
                                                   sorted.value, fuel);
  }

  /** The sorted messages: the events handled in turn, then, if all passed, the updates merged. */
  method HandleSorted(heap: Heap, tracker: Tracker, dreg: DataRegistry, sreg: ServiceRegistry,
                      mreg: MessageRegistry, wreg: WarpRegistry, platform: Platform, logContext: string,
                      warpKey: WarpKey, sorted: Companions, fuel: nat)
    returns (r: Outcome, ghost eventCalls: seq<Fired>, ghost handled: seq<Handled>, ghost stores: seq<Store>)
    requires AllEvents(sorted.events) && AllUpdates(sorted.updates)
    requires Ready(heap, dreg, wreg, platform)
    modifies heap, tracker, dreg, dreg.objects, wreg.riverClients, platform
    ensures Ready(heap, dreg, wreg, platform)
    ensures r.Pass? ==>
      Keyed(warpKey, sorted.events) && EventsMerged(sreg, logContext, warpKey, sorted.events, handled, fuel) &&
      eventCalls == EventsCalls(warpKey, sorted.events, handled, mreg.listeners.entries) &&
      heap.trace == old(heap.trace) + eventCalls && tracker.messages == old(tracker.messages) &&
      MergedChain(sreg, logContext, warpKey, AllDeltas(sorted.updates), fuel, stores) &&
      stores[0].pending == old(tracker.resolution) && stores[0].updates == old(tracker.updates) &&
      stores[0].deletes == old(tracker.deletes) && stores[|AllDeltas(sorted.updates)|] == StoreOf(heap, tracker, dreg)
  {
    stores := [];
    r, eventCalls, handled := HandleEvents(heap, dreg, sreg, mreg, wreg, platform, logContext, warpKey, sorted.events, fuel);
    if r.Pass? {
      r, stores := MergeUpdates(heap, tracker, dreg, sreg, logContext, warpKey, sorted.updates, fuel);
    }
  }

  /**
   * The end of callServiceMethodAsync: a missing return value is invalid
   * data; the value is read into the call's tracker; a Data reference is
   * left to a resolution that assigns a local, any other value is kept
   * as read; the tracker is applied once, and the local or the value is
   * returned.
   */
  method Finish(heap: Heap, tracker: Tracker, dreg: DataRegistry, sreg: ServiceRegistry, mreg: MessageRegistry,
                wreg: WarpRegistry, platform: Platform, logContext: string, warpKey: WarpKey,
                returnValue: Option<Value>, fuel: nat)
    returns (r: Result<Native>, ghost notified: seq<DataUpdatedEvent>)
    requires Ready(heap, dreg, wreg, platform)
    modifies heap, tracker, dreg, dreg.objects, wreg.riverClients, platform
    ensures Ready(heap, dreg, wreg, platform)
    ensures unchanged(sreg, sreg.classes, mreg, mreg.listeners)
    ensures returnValue.None? ==> r == Err(InvalidData) && heap.trace == old(heap.trace)
    ensures r.Ok? ==>
      tracker.resolution == [] && tracker.messages == [] && tracker.updates == [] && tracker.deletes == [] &&
      old(tracker.updates) <= notified &&
      heap.trace == old(heap.trace) + MessageTrace(old(tracker.messages), mreg.listeners.entries) +
                    UpdateTrace(notified, old(dreg.updatedListeners))
  {
    notified := [];
    if returnValue.None? {
      return Err(InvalidData), notified;
    }
    var read, cell := ReadReturnValue(heap, tracker, dreg, sreg, logContext, warpKey, returnValue.value, fuel);
    if read.Err? {
      return Err(read.error), notified;
    }
    r, notified := Conclude(heap, tracker, dreg, sreg, mreg, wreg, platform, logContext, read.value, cell, fuel);
  }

  /**
   * The tracker applied once after the return value was read, then the
   * local the resolution assigned, or the value as read.
   */
  method Conclude(heap: Heap, tracker: Tracker, dreg: DataRegistry, sreg: ServiceRegistry, mreg: MessageRegistry,
                  wreg: WarpRegistry, platform: Platform, logContext: string, value: Decoded, cell: Option<Handle>,
                  fuel: nat)
    returns (r: Result<Native>, ghost notified: seq<DataUpdatedEvent>)
    requires Ready(heap, dreg, wreg, platform)
    requires cell.Some? ==> cell.value < |heap.objects|
    requires cell.None? ==> value.Plain?
    modifies heap, tracker, dreg, dreg.objects, wreg.riverClients, platform
    ensures Ready(heap, dreg, wreg, platform)
    ensures unchanged(sreg, sreg.classes, mreg, mreg.listeners)
    ensures r.Ok? ==>
      tracker.resolution == [] && tracker.messages == [] && tracker.updates == [] && tracker.deletes == [] &&
      old(tracker.updates) <= notified &&
      heap.trace == old(heap.trace) + MessageTrace(old(tracker.messages), mreg.listeners.entries) +
                    UpdateTrace(notified, old(dreg.updatedListeners))
  {
    ghost var removed;
    var applied;
    applied, notified, removed := ApplyOnce(heap, tracker, dreg, sreg, mreg, wreg, platform, logContext, fuel);
    if applied.Fail? {
      return Err(applied.error), notified;
    }
    if cell.Some? {
      var o := heap.objects[cell.value];
      r := Ok(if o.LocalCell? then o.value else Null);
    } else {
      r := Ok(value.value);
    }
  }

  /**
   * The return value read into the call's tracker. A Data reference
   * comes back as its key, and a resolution is queued whose callback
   * assigns the instance, or null, to a fresh local.
   */
  method ReadReturnValue(heap: Heap, tracker: Tracker, dreg: DataRegistry, sreg: ServiceRegistry, logContext: string,
                         warpKey: WarpKey, v: Value, fuel: nat) returns (r: Result<Decoded>, cell: Option<Handle>)
    requires Coherent(heap, dreg)
    modifies heap, tracker
    ensures Coherent(heap, dreg)
    ensures var d := Decode(sreg, logContext, warpKey, v, DState(old(heap.objects), old(tracker.resolution)), fuel);
      (r.Ok? <==> d.Ok?) && (r.Err? ==> r.error == d.error) && (r.Ok? ==> r.value == d.value.0)
    ensures r.Ok? && r.value.Plain? ==> cell.None?
    ensures r.Ok? && r.value.Unresolved? ==>
      cell.Some? && cell.value < |heap.objects| && heap.objects[cell.value] == LocalCell(Null) &&
      |tracker.resolution| > 0 && tracker.resolution[|tracker.resolution| - 1] == Single(r.value.key, Assign(cell.value, AssignLocal))
    ensures KeepsData(old(heap.objects), heap.objects)
    ensures heap.trace == old(heap.trace)
    ensures tracker.messages == old(tracker.messages) && tracker.updates == old(tracker.updates) && tracker.deletes == old(tracker.deletes)
  {
    ghost var before := heap.objects;
    cell := None;
    r := DeserializeValue(heap, tracker, sreg, logContext, warpKey, v, fuel);
    if r.Ok? && r.value.Unresolved? {
      var local := heap.Alloc(LocalCell(Null));
      tracker.Enqueue(r.value.key, Assign(local, AssignLocal));
      cell := Some(local);
    }
    AgreesKept(before, heap.objects, dreg.objectKeys);
  }

  /**
   * callServiceMethodAsync. The call goes out once and a reply that is not
   * OK fails with its error. The bundled messages are sorted, an unknown
   * kind failing; every event is handled in full, each with a tracker of
   * its own, before any update is merged; the updates share one tracker,
   * which also receives the return value and is applied exactly once. So
   * every listener call the events cause, event after event, comes before
   * every update listener call of the shared tracker, and those hear of at
   * least every object the updates' merges queued.
   */
  method CallServiceMethod(heap: Heap, dreg: DataRegistry, sreg: ServiceRegistry, mreg: MessageRegistry,
                           wreg: WarpRegistry, platform: Platform, logContext: string,
                           service: Option<Handle>, methodId: int, args: seq<Native>, fuel: nat)
    returns (r: Result<Native>, ghost answer: Answer, ghost eventCalls: seq<Fired>, ghost handled: seq<Handled>,
             ghost stores: seq<Store>, ghost notified: seq<DataUpdatedEvent>, ghost heard: map<Handle, seq<ListenerId>>)
    requires Ready(heap, dreg, wreg, platform)
    requires service.Some? ==> service.value < |heap.objects|
    modifies heap, dreg, dreg.objects, wreg.riverClients, platform
    ensures Ready(heap, dreg, wreg, platform)
    ensures service.None? ==> r == Err(Falsy("service")) && platform.sent == old(platform.sent)
    ensures service.Some? && methodId == 0 ==> r == Err(Falsy("methodId")) && platform.sent == old(platform.sent)
    ensures r.Ok? ==>
      service.Some? && ServiceKeyOf(sreg, old(heap.objects)[service.value]).Ok? &&
      answer.classKey == ServiceKeyOf(sreg, old(heap.objects)[service.value]).value.classKey &&
      Answered(sreg, mreg, logContext, answer, fuel, eventCalls, handled, stores, notified) &&
      heap.trace == old(heap.trace) + (eventCalls + UpdateTrace(notified, heard))
  {
    answer := Answer(ClassKey(WarpKey(0, 0), 0), None, []);
    eventCalls := [];
    handled := [];
    stores := [];
    notified := [];
    heard := dreg.updatedListeners;
    var reply := Invoke(heap, dreg, sreg, wreg, platform, logContext, service, methodId, args, fuel);
    if reply.Err? {
      return Err(reply.error), answer, eventCalls, handled, stores, notified, heard;
    }
    answer := reply.value;
    r, eventCalls, handled, stores, notified, heard := Complete(heap, dreg, sreg, mreg, wreg, platform, logContext,
                                                                reply.value, fuel);
  }

  /**
   * What an answered call did with its bundled messages: they sorted;
   * every event had its instance key and its deltas merged, and made
   * `eventCalls`; the updates' deltas were merged in order through the
   * chain `stores`, which starts from a fresh tracker; and the update
   * listeners heard of at least the objects those merges queued.
   */
  ghost predicate Answered(sreg: ServiceRegistry, mreg: MessageRegistry, logContext: string, answer: Answer, fuel: nat,
                           eventCalls: seq<Fired>, handled: seq<Handled>, stores: seq<Store>, notified: seq<DataUpdatedEvent>)
    reads sreg, sreg.classes, mreg, mreg.listeners
  {
    var warpKey := answer.classKey.warpKey;
    Split(answer.messages).Ok? &&
    var sorted := Split(answer.messages).value;
    Keyed(warpKey, sorted.events) && EventsMerged(sreg, logContext, warpKey, sorted.events, handled, fuel) &&
    eventCalls == EventsCalls(warpKey, sorted.events, handled, mreg.listeners.entries) &&
    MergedChain(sreg, logContext, warpKey, AllDeltas(sorted.updates), fuel, stores) &&
    stores[0].pending == [] && stores[0].updates == [] && stores[0].deletes == [] &&
    stores[|AllDeltas(sorted.updates)|].updates <= notified
  }

  /**
   * The rest of callServiceMethodAsync once an OK reply is in: the bundled
   * events are handled, then the updates merged into one fresh tracker,
   * then the return value is read and the tracker applied.
   */
  method Complete(heap: Heap, dreg: DataRegistry, sreg: ServiceRegistry, mreg: MessageRegistry,
                  wreg: WarpRegistry, platform: Platform, logContext: string, answer: Answer, fuel: nat)
    returns (r: Result<Native>, ghost eventCalls: seq<Fired>, ghost handled: seq<Handled>, ghost stores: seq<Store>,
             ghost notified: seq<DataUpdatedEvent>, ghost heard: map<Handle, seq<ListenerId>>)
    requires Ready(heap, dreg, wreg, platform)
    requires forall i :: 0 <= i < |answer.messages| ==> MessageWellFormed(answer.messages[i])
    modifies heap, dreg, dreg.objects, wreg.riverClients, platform
    ensures Ready(heap, dreg, wreg, platform)
    ensures Split(answer.messages).Err? ==> r == Err(InvalidData)
    ensures r.Ok? ==>
      Answered(sreg, mreg, logContext, answer, fuel, eventCalls, handled, stores, notified) &&
      heap.trace == old(heap.trace) + (eventCalls + UpdateTrace(notified, heard))
  {
    eventCalls := [];
    handled := [];
    stores := [];
    notified := [];
    heard := dreg.updatedListeners;
    var warpKey := answer.classKey.warpKey;
    var tracker := new Tracker();
    var done;
    done, eventCalls, handled, stores := HandleCompanions(heap, tracker, dreg, sreg, mreg, wreg, platform, logContext, warpKey,
                                                         answer.messages, fuel);
    if done.Fail? {
      return Err(done.error), eventCalls, handled, stores, notified, heard;
    }
    heard := dreg.updatedListeners;
    ghost var mid := heap.trace;
    r, notified := Finish(heap, tracker, dreg, sreg, mreg, wreg, platform, logContext, warpKey,
                          answer.returnValue, fuel);
    if r.Ok? {
      assert MessageTrace([], mreg.listeners.entries) == [];
      assert mid + [] == mid;
      Regroup(old(heap.trace), eventCalls, UpdateTrace(notified, heard));
    }
  }

}
