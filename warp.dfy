/**
 * The public `warp` object of the client library: getting and saving Data,
 * getting a Service, subscribing to Messages and to Data updates, and the
 * purely local bookkeeping of update listeners. Every network step goes
 * over the warp's cached or newly opened RiverClient. The log context that
 * `createLogContext` would make is a parameter, and the warp options are
 * not part of this model.
 */
module WarpFacade {
  import opened Wrappers
  import opened Unsigned
  import opened Keys
  import opened JsHeap
  import opened Wire
  import opened Registry
  import opened Responses
  import opened Tracking
  import opened ModelTypes
  import opened Codec
  import opened Decoding
  import opened Requests
  import opened River
  import opened Merging
  import opened UpdateHandling
  import opened Sync
  import opened Client

  // ---------------------------------------------------------------------
  // Argument guards.

  /**
   * friendlyArrayArgumentRequired for an array argument and
   * friendlyArgumentRequired for a single object, which is always truthy:
   * only an empty array is refused.
   */
  function RequireObjects<T>(name: string, arg: OneOrMany<T>): (r: Outcome)
    ensures r.Pass? <==> |NormalizeArrayArg(arg)| > 0
    ensures r.Fail? ==> r.error == Falsy(name)
  {
    if arg.Many? && |arg.items| == 0 then Fail(Falsy(name)) else Pass
  }

  // ---------------------------------------------------------------------
  // One request over the warp's connection.

  /**
   * A RiverClient call whose reply must be OK: the warp's connection is
   * fetched first, then the request goes out once and its reply is read;
   * a reply that reads but is not OK fails with getErrorForNotOkResponse.
   */
  method Call(wreg: WarpRegistry, platform: Platform, warpKey: WarpKey, request: Result<Request>)
    returns (r: Result<UserResponse>)
    requires wreg.Valid() && platform.Valid()
    modifies wreg.riverClients, platform
    ensures wreg.Valid() && platform.Valid()
    ensures old(platform.sent) <= platform.sent
    ensures !old(wreg.IsRegistered(warpKey)) ==> r == Err(NotRegistered) && platform.sent == old(platform.sent)
    ensures request.Err? ==> r.Err? && platform.sent == old(platform.sent)
    ensures |platform.sent| == |old(platform.sent)| || |platform.sent| == |old(platform.sent)| + 1
    ensures |platform.sent| == |old(platform.sent)| + 1 ==>
      request.Ok? && old(platform.replies) != [] &&
      platform.sent[|old(platform.sent)|].1 == request.value &&
      var kind := ExpectedKind(request.value.body);
      var read := ReadResponse(old(platform.replies)[0], kind, AcceptsMessages(kind));
      (read.Err? ==> r == Err(read.error)) &&
      (read.Ok? && read.value.response.None? ==> r == Err(GetErrorForNotOkResponse(read.value))) &&
      (read.Ok? && read.value.response.Some? ==> r == read)
    ensures r.Ok? ==> |platform.sent| == |old(platform.sent)| + 1 && r.value.response.Some? && ResponseWellFormed(r.value)
    ensures r.Ok? ==> request.Ok? && platform.sent[|old(platform.sent)|].1 == request.value
  {
    var client := GetRiverClient(wreg, platform, warpKey);
    if client.Err? {
      return Err(client.error);
    }
    if request.Err? {
      return Err(request.error);
    }
    var response := Exchange(platform, client.value, request.value);
    if response.Err? {
      return response;
    }
    if response.value.response.None? {
      return Err(GetErrorForNotOkResponse(response.value));
    }
    r := response;
  }

  // ---------------------------------------------------------------------
  // getDataAsync.

  /**
   * getDataAsync: the primary key must be non-empty and the class
   * registered; the object is fetched into a fresh tracker, which is then
   * applied once. The result is a live Data object carrying the primary key
   * asked for, or nothing; the listeners called are those of the updates
   * the tracker applied.
   */
  method GetData(heap: Heap, dreg: DataRegistry, sreg: ServiceRegistry, mreg: MessageRegistry, wreg: WarpRegistry,
                 platform: Platform, logContext: string, dataType: Ctor, primaryKey: string, fuel: nat)
    returns (r: Result<Option<Handle>>, ghost notified: seq<DataUpdatedEvent>,
             ghost heard: map<Handle, seq<ListenerId>>, ghost data: seq<Option<DataSnapshot>>,
             ghost loaded: seq<Option<Handle>>)
    requires Ready(heap, dreg, wreg, platform)
    modifies heap, dreg, dreg.objects, wreg.riverClients, platform
    ensures Ready(heap, dreg, wreg, platform)
    ensures primaryKey == "" ==> r == Err(Falsy("primaryKey")) && platform.sent == old(platform.sent)
    ensures primaryKey != "" && !old(dataType in dreg.ctorToClassKey) ==>
      r == Err(NotRegistered) && platform.sent == old(platform.sent)
    ensures r.Ok? ==> old(dataType in dreg.ctorToClassKey) && primaryKey != ""
    ensures r.Ok? && r.value.Some? ==> DataAt(heap.objects, r.value.value, primaryKey)
    ensures r.Ok? ==>
      |loaded| == |data| && (forall i :: 0 <= i < |data| ==> data[i].Some?) &&
      r.value == Target(data, loaded, DataKey(old(dreg.GetClassKey(dataType)).value, primaryKey))
    ensures r.Ok? ==> heap.trace == old(heap.trace) + UpdateTrace(notified, heard)
  {
    notified := [];
    heard := dreg.updatedListeners;
    data := [];
    loaded := [];
    if primaryKey == "" {
      return Err(Falsy("primaryKey")), notified, heard, data, loaded;
    }
    var classKey := dreg.GetClassKey(dataType);
    if classKey.Err? {
      return Err(classKey.error), notified, heard, data, loaded;
    }
    var tracker := new Tracker();
    var fetched;
    fetched, data, loaded := FetchData(heap, tracker, dreg, sreg, wreg, platform, logContext,
                                       DataKey(classKey.value, primaryKey), fuel);
    if fetched.Err? {
      return Err(fetched.error), notified, heard, data, loaded;
    }
    heard := dreg.updatedListeners;
    ghost var installed := heap.objects;
    ghost var mid := heap.trace;
    var applied;
    ghost var removed;
    applied, notified, removed := ApplyOnce(heap, tracker, dreg, sreg, mreg, wreg, platform, logContext, fuel);
    if applied.Fail? {
      return Err(applied.error), notified, heard, data, loaded;
    }
    if fetched.value.Some? {
      KeepsDataAt(installed, heap.objects, fetched.value.value, primaryKey);
    }
    assert MessageTrace([], mreg.listeners.entries) == [];
    assert mid + [] == mid;
    r := fetched;
  }

  // ---------------------------------------------------------------------
  // saveDataAsync.

  /**
   * riverClient.saveDataAsync on the objects' warp: the save request built
   * from the objects goes out once and an OK reply yields its bundled
   * messages. No object and no Data registry entry is touched.
   */
  method Store(heap: Heap, dreg: DataRegistry, wreg: WarpRegistry, platform: Platform, env: Env, versions: map<Handle, Unsigned>,
               logContext: string, warpKey: WarpKey, objects: seq<Handle>, fuel: nat)
    returns (r: Result<seq<UserMessage>>)
    requires wreg.Valid() && platform.Valid()
    modifies wreg.riverClients, platform
    ensures wreg.Valid() && platform.Valid()
    ensures old(platform.sent) <= platform.sent
    ensures unchanged(heap, dreg, dreg.classes, dreg.objects)
    ensures !old(wreg.IsRegistered(warpKey)) ==> r == Err(NotRegistered) && platform.sent == old(platform.sent)
    ensures r.Ok? ==>
      SaveDataSpec(env, versions, logContext, objects, fuel).Ok? &&
      |platform.sent| == |old(platform.sent)| + 1 &&
      platform.sent[|old(platform.sent)|].1 == SaveDataSpec(env, versions, logContext, objects, fuel).value
    ensures r.Ok? ==> forall i :: 0 <= i < |r.value| ==> MessageWellFormed(r.value[i])
  {
    var request := CreateSaveDataRequest(env, versions, logContext, objects, fuel);
    var response := Call(wreg, platform, warpKey, request);
    if response.Err? {
      return Err(response.error);
    }
    r := Ok(MessagesOf(response.value));
  }

  /**
   * The messages bundled with a save reply, in order: each Data update is
   * merged into the tracker, a Message is unexpected and anything else is
   * invalid data. Nothing is delivered here. On success the deltas of all
   * the updates, one message after the other, were merged in order
   * through the chain `stores`, from the old store to the new one.
   */
  method MergeSaved(heap: Heap, tracker: Tracker, dreg: DataRegistry, sreg: ServiceRegistry,
                    logContext: string, warpKey: WarpKey, messages: seq<UserMessage>, fuel: nat)
    returns (r: Outcome, ghost stores: seq<Store>)
    requires forall i :: 0 <= i < |messages| ==> MessageWellFormed(messages[i])
    requires Coherent(heap, dreg)
    modifies heap, tracker, dreg, dreg.objects
    ensures Coherent(heap, dreg)
    ensures heap.trace == old(heap.trace) && tracker.messages == old(tracker.messages)
    ensures r.Pass? ==>
      (forall i :: 0 <= i < |messages| ==>
        messages[i].DataUpdateMessage? && PresentUpTo(messages[i].deltas, |messages[i].deltas|)) &&
      MergedChain(sreg, logContext, warpKey, AllDeltas(messages), fuel, stores) &&
      stores[0] == old(StoreOf(heap, tracker, dreg)) && stores[|AllDeltas(messages)|] == StoreOf(heap, tracker, dreg)
  {
    stores := [StoreOf(heap, tracker, dreg)];
    var i := 0;
    while i < |messages|
      invariant 0 <= i <= |messages|
      invariant Coherent(heap, dreg)
      invariant heap.trace == old(heap.trace) && tracker.messages == old(tracker.messages)
      invariant forall j :: 0 <= j < i ==>
        messages[j].DataUpdateMessage? && PresentUpTo(messages[j].deltas, |messages[j].deltas|)
      invariant MergedChain(sreg, logContext, warpKey, AllDeltas(messages[..i]), fuel, stores)
      invariant stores[0] == old(StoreOf(heap, tracker, dreg)) && stores[|AllDeltas(messages[..i])|] == StoreOf(heap, tracker, dreg)
    {
      match messages[i] {
        case DataUpdateMessage(deltas) =>
          var merged;
          ghost var count, chain;
          merged, count, chain := HandleDataUpdate(heap, tracker, dreg, sreg, logContext, warpKey, deltas, fuel);
          if merged.Fail? {
            return merged, stores;
          }
          assert deltas[..count] == deltas;
          ChainsJoin(sreg, logContext, warpKey, AllDeltas(messages[..i]), deltas, fuel, stores, chain);
          assert messages[..i + 1][..i] == messages[..i];
          stores := stores + chain[1..];
        case MessageMessage(_, _) =>
          return Fail(UnexpectedEvent), stores;
        case NoMessage =>
          return Fail(InvalidData), stores;
      }
      i := i + 1;
    }
    assert messages[..i] == messages;
    r := Pass;
  }

  /**
   * saveDataAsync: at least one object, all acceptable (registered, keyed,
   * of one warp, distinct); the save request built from them goes to that
   * warp once, before any other request, the reply's updates are merged
   * into a fresh tracker (a bundled Message is an error) and the tracker
   * is applied once.
   */
  method SaveData(heap: Heap, dreg: DataRegistry, sreg: ServiceRegistry, mreg: MessageRegistry, wreg: WarpRegistry,
                  platform: Platform, logContext: string, data: seq<Handle>, fuel: nat)
    returns (r: Outcome, ghost companions: seq<UserMessage>, ghost stores: seq<Store>, ghost notified: seq<DataUpdatedEvent>,
             ghost heard: map<Handle, seq<ListenerId>>)
    requires Ready(heap, dreg, wreg, platform)
    modifies heap, dreg, dreg.objects, wreg.riverClients, platform
    ensures Ready(heap, dreg, wreg, platform)
    ensures |data| == 0 ==> r == Fail(Falsy("data")) && platform.sent == old(platform.sent)
    ensures |data| > 0 && DataAndKeys(old(EnvOf(heap, dreg, sreg)), Many(data)).Err? ==>
      r == Fail(DataAndKeys(old(EnvOf(heap, dreg, sreg)), Many(data)).error) && platform.sent == old(platform.sent)
    ensures r.Pass? ==>
      DataAndKeys(old(EnvOf(heap, dreg, sreg)), Many(data)).Ok? &&
      var c := DataAndKeys(old(EnvOf(heap, dreg, sreg)), Many(data)).value;
      Saved(sreg, logContext, c.warpKey, old(EnvOf(heap, dreg, sreg)), old(dreg.versions), c.objects, fuel,
            old(platform.sent), platform.sent, companions, old(FreshStore(heap, dreg)), stores, notified) &&
      heap.trace == old(heap.trace) + UpdateTrace(notified, heard)
  {
    notified := [];
    heard := dreg.updatedListeners;
    companions := [];
    stores := [];
    var given := RequireObjects("data", Many(data));
    if given.Fail? {
      return given, companions, stores, notified, heard;
    }
    var env := EnvOf(heap, dreg, sreg);
    var collected := GetDataAndKeyMap(env, Many(data));
    if collected.Err? {
      return Fail(collected.error), companions, stores, notified, heard;
    }
    r, companions, stores, notified, heard := SaveTo(heap, dreg, sreg, mreg, wreg, platform, logContext, env, collected.value.0,
                                         collected.value.1, fuel);
  }

  /**
   * What a save that succeeded did: its request, built from the objects,
   * is the first request sent; the reply's bundled messages, `companions`,
   * are all Data updates, whose deltas were merged in order through the
   * chain `stores`, from a fresh tracker's store; and the
   * update listeners heard of at least the objects those merges queued.
   */
  ghost predicate Saved(sreg: ServiceRegistry, logContext: string, warpKey: WarpKey, env: Env, versions: map<Handle, Unsigned>,
                        objects: seq<Handle>, fuel: nat, sent0: seq<(nat, Request)>, sent1: seq<(nat, Request)>,
                        companions: seq<UserMessage>, start: Store, stores: seq<Store>, notified: seq<DataUpdatedEvent>)
    reads sreg, sreg.classes
  {
    SaveDataSpec(env, versions, logContext, objects, fuel).Ok? &&
    sent0 < sent1 && sent1[|sent0|].1 == SaveDataSpec(env, versions, logContext, objects, fuel).value &&
    (forall i :: 0 <= i < |companions| ==> companions[i].DataUpdateMessage?) &&
    MergedChain(sreg, logContext, warpKey, AllDeltas(companions), fuel, stores) &&
    stores[0] == start && stores[|AllDeltas(companions)|].updates <= notified
  }

  /**
   * The network part of saveDataAsync, once the objects are known to be
   * acceptable and of one warp.
   */
  method SaveTo(heap: Heap, dreg: DataRegistry, sreg: ServiceRegistry, mreg: MessageRegistry, wreg: WarpRegistry,
                platform: Platform, logContext: string, env: Env, warpKey: WarpKey, objects: seq<Handle>, fuel: nat)
    returns (r: Outcome, ghost companions: seq<UserMessage>, ghost stores: seq<Store>, ghost notified: seq<DataUpdatedEvent>,
             ghost heard: map<Handle, seq<ListenerId>>)
    requires Ready(heap, dreg, wreg, platform)
    modifies heap, dreg, dreg.objects, wreg.riverClients, platform
    ensures Ready(heap, dreg, wreg, platform)
    ensures r.Pass? ==>
      Saved(sreg, logContext, warpKey, env, old(dreg.versions), objects, fuel, old(platform.sent), platform.sent,
            companions, old(FreshStore(heap, dreg)), stores, notified) &&
      heap.trace == old(heap.trace) + UpdateTrace(notified, heard)
  {
    notified := [];
    heard := dreg.updatedListeners;
    companions := [];
    stores := [];
    var reply := Store(heap, dreg, wreg, platform, env, dreg.versions, logContext, warpKey, objects, fuel);
    if reply.Err? {
      return Fail(reply.error), companions, stores, notified, heard;
    }
    companions := reply.value;
    ghost var sent := platform.sent;
    r, stores, notified, heard := Absorb(heap, dreg, sreg, mreg, wreg, platform, logContext, warpKey, reply.value, fuel);
    if r.Pass? {
      assert sent[|old(platform.sent)|] == platform.sent[|old(platform.sent)|];
    }
  }

  /**
   * The end of saveDataAsync: the reply's updates merged into a fresh
   * tracker, through the chain `stores`, which is then applied once: the
   * update listeners hear of at least the objects the merges queued, and
   * every key they queued for deletion is gone from the registry. Only
   * requests for references still to resolve are sent.
   */
  method Absorb(heap: Heap, dreg: DataRegistry, sreg: ServiceRegistry, mreg: MessageRegistry, wreg: WarpRegistry,
                platform: Platform, logContext: string, warpKey: WarpKey, companions: seq<UserMessage>, fuel: nat)
    returns (r: Outcome, ghost stores: seq<Store>, ghost notified: seq<DataUpdatedEvent>,
             ghost heard: map<Handle, seq<ListenerId>>)
    requires forall i :: 0 <= i < |companions| ==> MessageWellFormed(companions[i])
    requires Ready(heap, dreg, wreg, platform)
    modifies heap, dreg, dreg.objects, wreg.riverClients, platform
    ensures Ready(heap, dreg, wreg, platform)
    ensures old(platform.sent) <= platform.sent
    ensures r.Pass? ==>
      (forall i :: 0 <= i < |companions| ==> companions[i].DataUpdateMessage?) &&
      MergedChain(sreg, logContext, warpKey, AllDeltas(companions), fuel, stores) &&
      stores[0] == old(FreshStore(heap, dreg)) &&
      stores[|AllDeltas(companions)|].updates <= notified &&
      (forall k :: k in stores[|AllDeltas(companions)|].deletes ==> dreg.TryGetInstance(k) == None) &&
      heap.trace == old(heap.trace) + UpdateTrace(notified, heard)
  {
    notified := [];
    heard := dreg.updatedListeners;
    var tracker := new Tracker();
    assert StoreOf(heap, tracker, dreg) == FreshStore(heap, dreg);
    r, stores := MergeSaved(heap, tracker, dreg, sreg, logContext, warpKey, companions, fuel);
    if r.Fail? {
      return r, stores, notified, heard;
    }
    ghost var last := stores[|AllDeltas(companions)|];
    assert last.updates == tracker.updates && last.deletes == tracker.deletes;
    heard := dreg.updatedListeners;
    ghost var mid := heap.trace;
    r, notified := ApplyMerged(heap, tracker, dreg, sreg, mreg, wreg, platform, logContext, fuel);
    assert mid + [] == mid;
  }

  // ---------------------------------------------------------------------
  // closeConnections and getService.

  /**
   * closeConnections: every cached connection is dropped (and returned,
   * to be shut down), and every Message and update listener is removed.
   * New connections and listeners may follow.
   */
  method CloseConnections(wreg: WarpRegistry, mreg: MessageRegistry, dreg: DataRegistry)
    returns (shut: set<RiverClient>)
    modifies wreg.riverClients, mreg.listeners, dreg
    ensures shut == old(wreg.riverClients.entries).Values
    ensures wreg.riverClients.entries == map[] && mreg.listeners.entries == map[] && dreg.updatedListeners == map[]
    ensures dreg.versions == old(dreg.versions) && dreg.objectKeys == old(dreg.objectKeys)
  {
    shut := wreg.ClearRiverClients();
    mreg.ClearAllListeners();
    dreg.ClearAllUpdateListeners();
  }

  /**
   * getService: no network call. The primary key must be non-empty and the
   * class registered; the new instance carries both, so its service key
   * is the one the call was made with.
   */
  method GetService(heap: Heap, sreg: ServiceRegistry, serviceType: Ctor, primaryKey: string)
    returns (r: Result<Handle>)
    requires sreg.Valid()
    modifies heap
    ensures primaryKey == "" ==> r == Err(Falsy("primaryKey")) && heap.objects == old(heap.objects)
    ensures primaryKey != "" ==> (r.Ok? <==> sreg.IsRegistered(serviceType))
    ensures r.Err? ==> heap.objects == old(heap.objects)
    ensures r.Ok? ==>
      r.value == |old(heap.objects)| && heap.objects == old(heap.objects) + [ServiceObj(serviceType, primaryKey)] &&
      ServiceKeyOf(sreg, heap.objects[r.value]) == Ok(ServiceKey(sreg.ctorToClassKey[serviceType], primaryKey))
    ensures heap.trace == old(heap.trace)
  {
    if primaryKey == "" {
      return Err(Falsy("primaryKey"));
    }
    var classKey := sreg.GetClassKey(serviceType);
    if classKey.Err? {
      return Err(classKey.error);
    }
    r := sreg.CreateInstance(heap, ServiceKey(classKey.value, primaryKey));
  }

  // ---------------------------------------------------------------------
  // Message subscriptions.

  /**
   * maybeGetMessageSourceKey: a Data object is known by the key the
   * registry holds for it, a Service by its registered class and primary
   * key; any other object is not a message source.
   */
  function SourceKeyOf(dreg: DataRegistry, sreg: ServiceRegistry, objects: seq<Obj>, source: Handle): (r: Result<SourceKey>)
    requires source < |objects|
    reads dreg`objectKeys, sreg, sreg.classes
    ensures !(objects[source].DataObj? || objects[source].ServiceObj?) ==> r == Err(InvalidMessageSource)
    ensures objects[source].DataObj? ==>
      (r.Ok? <==> source in dreg.objectKeys) && (r.Ok? ==> r.value == DataSource(dreg.objectKeys[source]))
    ensures objects[source].ServiceObj? ==>
      (r.Ok? <==> sreg.IsRegistered(objects[source].ctor) && objects[source].primaryKey != "") &&
      (r.Ok? ==> r.value == ServiceSource(ServiceKey(sreg.ctorToClassKey[objects[source].ctor], objects[source].primaryKey)))
  {
    match objects[source]
    case DataObj(_, _, _) =>
      (match dreg.GetDataKey(source)
       case Err(e) => Err(e)
       case Ok(k) => Ok(DataSource(k)))
    case ServiceObj(ctor, primaryKey) =>
      (match sreg.GetClassKey(ctor)
       case Err(e) => Err(e)
       case Ok(classKey) =>
         match NewServiceKey(classKey, primaryKey)
         case Err(e) => Err(e)
         case Ok(k) => Ok(ServiceSource(k)))
    case _ => Err(InvalidMessageSource)
  }

  /** The message instance key of a source and a message class: the source is checked first. */
  function InstanceKeyFor(dreg: DataRegistry, sreg: ServiceRegistry, mreg: MessageRegistry, objects: seq<Obj>,
                          source: Handle, messageType: Ctor): (r: Result<MessageInstanceKey>)
    requires source < |objects|
    reads dreg`objectKeys, sreg, sreg.classes, mreg, mreg.classes
    ensures SourceKeyOf(dreg, sreg, objects, source).Err? ==> r == Err(SourceKeyOf(dreg, sreg, objects, source).error)
    ensures r.Ok? <==> SourceKeyOf(dreg, sreg, objects, source).Ok? && mreg.IsRegistered(messageType)
    ensures r.Ok? ==>
      r.value == MessageInstanceKey(mreg.ctorToClassKey[messageType], SourceKeyOf(dreg, sreg, objects, source).value)
  {
    match SourceKeyOf(dreg, sreg, objects, source)
    case Err(e) => Err(e)
    case Ok(sourceKey) =>
      match mreg.GetClassKey(messageType)
      case Err(e) => Err(e)
      case Ok(classKey) => Ok(MessageInstanceKey(classKey, sourceKey))
  }

  /** A listener list with one more listener at its end. */
  function Appended(entries: map<string, seq<ListenerId>>, k: string, listener: ListenerId): map<string, seq<ListenerId>>
  {
    entries[k := (if k in entries then entries[k] else []) + [listener]]
  }

  /**
   * removeMessageListener: only the local listener goes; the subscription
   * stays and nothing is sent.
   */
  method RemoveMessageListener(heap: Heap, dreg: DataRegistry, sreg: ServiceRegistry, mreg: MessageRegistry,
                               source: Handle, messageType: Ctor, listener: ListenerId) returns (r: Outcome)
    requires source < |heap.objects|
    modifies mreg.listeners
    ensures var key := InstanceKeyFor(dreg, sreg, mreg, heap.objects, source, messageType);
      (key.Err? ==> r == Fail(key.error) && mreg.listeners.entries == old(mreg.listeners.entries)) &&
      (key.Ok? ==>
        (r.Pass? &&
         var k := MessageInstanceKeyValue(key.value);
         mreg.listeners.entries ==
           if k in old(mreg.listeners.entries)
           then old(mreg.listeners.entries)[k := RemoveFirst(old(mreg.listeners.entries)[k], listener)]
           else old(mreg.listeners.entries)))
  {
    var key := InstanceKeyFor(dreg, sreg, mreg, heap.objects, source, messageType);
    if key.Err? {
      return Fail(key.error);
    }
    mreg.RemoveListener(key.value, listener);
    r := Pass;
  }

  /**
   * subscribeMessageAsync: a message instance already subscribed only gains
   * the listener, with nothing sent; otherwise the subscription goes to the
   * message class's warp and the listener is added only once it is OK.
   */
  method SubscribeMessage(heap: Heap, dreg: DataRegistry, sreg: ServiceRegistry, mreg: MessageRegistry,
                          wreg: WarpRegistry, platform: Platform, logContext: string,
                          source: Handle, messageType: Ctor, listener: ListenerId) returns (r: Outcome)
    requires source < |heap.objects|
    requires wreg.Valid() && platform.Valid()
    modifies mreg.listeners, wreg.riverClients, platform
    ensures wreg.Valid() && platform.Valid()
    ensures var key := old(InstanceKeyFor(dreg, sreg, mreg, heap.objects, source, messageType));
      (key.Err? ==> r == Fail(key.error) && platform.sent == old(platform.sent)) &&
      (r.Fail? ==> mreg.listeners.entries == old(mreg.listeners.entries)) &&
      (r.Pass? ==>
        (key.Ok? &&
         mreg.listeners.entries == Appended(old(mreg.listeners.entries), MessageInstanceKeyValue(key.value), listener))) &&
      (key.Ok? && MessageInstanceKeyValue(key.value) in old(mreg.listeners.entries) ==>
        r.Pass? && platform.sent == old(platform.sent) && platform.attempts == old(platform.attempts)) &&
      (r.Pass? && key.Ok? && MessageInstanceKeyValue(key.value) !in old(mreg.listeners.entries) ==>
        |platform.sent| == |old(platform.sent)| + 1 &&
        Ok(platform.sent[|old(platform.sent)|].1) == CreateMessageSubscriptionRequest(logContext, key.value, true))
  {
    var key := InstanceKeyFor(dreg, sreg, mreg, heap.objects, source, messageType);
    if key.Err? {
      return Fail(key.error);
    }
    if mreg.TryGetListeners(key.value).Some? {
      mreg.AddListener(key.value, listener);
      return Pass;
    }
    var request := CreateMessageSubscriptionRequest(logContext, key.value, true);
    var response := Call(wreg, platform, key.value.messageClassKey.warpKey, request);
    if response.Err? {
      return Fail(response.error);
    }
    mreg.AddListener(key.value, listener);
    r := Pass;
  }

  /**
   * unsubscribeMessageAsync: the unsubscription goes to the message class's
   * warp, and only once it is OK are all the instance's listeners removed.
   */
  method UnsubscribeMessage(heap: Heap, dreg: DataRegistry, sreg: ServiceRegistry, mreg: MessageRegistry,
                            wreg: WarpRegistry, platform: Platform, logContext: string,
                            source: Handle, messageType: Ctor) returns (r: Outcome)
    requires source < |heap.objects|
    requires wreg.Valid() && platform.Valid()
    modifies mreg.listeners, wreg.riverClients, platform
    ensures wreg.Valid() && platform.Valid()
    ensures var key := old(InstanceKeyFor(dreg, sreg, mreg, heap.objects, source, messageType));
      (key.Err? ==> r == Fail(key.error) && platform.sent == old(platform.sent)) &&
      (r.Fail? ==> mreg.listeners.entries == old(mreg.listeners.entries)) &&
      (r.Pass? ==>
        (key.Ok? &&
         mreg.listeners.entries == old(mreg.listeners.entries) - {MessageInstanceKeyValue(key.value)} &&
         |platform.sent| == |old(platform.sent)| + 1 &&
         Ok(platform.sent[|old(platform.sent)|].1) == CreateMessageSubscriptionRequest(logContext, key.value, false)))
  {
    var key := InstanceKeyFor(dreg, sreg, mreg, heap.objects, source, messageType);
    if key.Err? {
      return Fail(key.error);
    }
    r := UnsubscribeKey(mreg, wreg, platform, logContext, key.value);
  }

  /** The unsubscription of one message instance once its key is known. */
  method UnsubscribeKey(mreg: MessageRegistry, wreg: WarpRegistry, platform: Platform, logContext: string,
                        key: MessageInstanceKey) returns (r: Outcome)
    requires wreg.Valid() && platform.Valid()
    modifies mreg.listeners, wreg.riverClients, platform
    ensures wreg.Valid() && platform.Valid()
    ensures r.Fail? ==> mreg.listeners.entries == old(mreg.listeners.entries)
    ensures r.Pass? ==>
      mreg.listeners.entries == old(mreg.listeners.entries) - {MessageInstanceKeyValue(key)} &&
      |platform.sent| == |old(platform.sent)| + 1 &&
      Ok(platform.sent[|old(platform.sent)|].1) == CreateMessageSubscriptionRequest(logContext, key, false)
  {
    var request := CreateMessageSubscriptionRequest(logContext, key, false);
    var response := Call(wreg, platform, key.messageClassKey.warpKey, request);
    if response.Err? {
      return Fail(response.error);
    }
    assert Ok(platform.sent[|old(platform.sent)|].1) == request;
    mreg.ClearListeners(key);
    r := Pass;
  }

  // ---------------------------------------------------------------------
  // Update listeners: local bookkeeping only.

  /** The update listeners of one object, none when it has no list. */
  function Listed(m: map<Handle, seq<ListenerId>>, h: Handle): seq<ListenerId>
  {
    if h in m then m[h] else []
  }

  /** `listener` added once per occurrence of each object, in order. */
  function WithListener(m: map<Handle, seq<ListenerId>>, hs: seq<Handle>, listener: ListenerId): map<Handle, seq<ListenerId>>
    decreases |hs|
  {
    if |hs| == 0 then m
    else
      var before := WithListener(m, hs[..|hs| - 1], listener);
      before[hs[|hs| - 1] := Listed(before, hs[|hs| - 1]) + [listener]]
  }

  /** `listener` removed once, where present, per occurrence of each object. */
  function WithoutListener(m: map<Handle, seq<ListenerId>>, hs: seq<Handle>, listener: ListenerId): map<Handle, seq<ListenerId>>
    decreases |hs|
  {
    if |hs| == 0 then m
    else
      var before := WithoutListener(m, hs[..|hs| - 1], listener);
      var h := hs[|hs| - 1];
      if h in before then before[h := RemoveFirst(before[h], listener)] else before
  }

  /** `n` copies of a listener. */
  function Copies(listener: ListenerId, n: nat): seq<ListenerId>
  {
    if n == 0 then [] else Copies(listener, n - 1) + [listener]
  }

  /** The last object named, counted apart from the others. */
  lemma CountLast(hs: seq<Handle>, h: Handle)
    requires |hs| > 0
    ensures multiset(hs)[h] == multiset(hs[..|hs| - 1])[h] + (if hs[|hs| - 1] == h then 1 else 0)
    ensures h in hs <==> h in hs[..|hs| - 1] || h == hs[|hs| - 1]
  {
    assert hs == hs[..|hs| - 1] + [hs[|hs| - 1]];
  }

  lemma Assoc(a: seq<ListenerId>, b: seq<ListenerId>, c: seq<ListenerId>)
    ensures a + b + c == a + (b + c)
  {
  }

  lemma MinusTwice(a: multiset<ListenerId>, b: multiset<ListenerId>, x: ListenerId)
    ensures a - b - multiset{x} == a - (b + multiset{x})
  {
    assert forall y :: (a - b - multiset{x})[y] == (a - (b + multiset{x}))[y];
  }

  /**
   * Adding a listener to a list of objects appends it to each object's
   * list once per time the object is listed, and leaves every other
   * object's list as it was.
   */
  lemma {:induction false} WithListenerMeaning(m: map<Handle, seq<ListenerId>>, hs: seq<Handle>, listener: ListenerId, h: Handle)
    ensures Listed(WithListener(m, hs, listener), h) == Listed(m, h) + Copies(listener, multiset(hs)[h])
    ensures h in WithListener(m, hs, listener) <==> h in m || h in hs
    decreases |hs|
  {
    if |hs| == 0 {
      assert Copies(listener, multiset(hs)[h]) == [];
    } else {
      var init := hs[..|hs| - 1];
      var last := hs[|hs| - 1];
      var before := WithListener(m, init, listener);
      WithListenerMeaning(m, init, listener, h);
      CountLast(hs, h);
      assert WithListener(m, hs, listener) == before[last := Listed(before, last) + [listener]];
      if last == h {
        var counted: multiset<Handle> := multiset(init);
        var n := counted[h];
        assert Copies(listener, n + 1) == Copies(listener, n) + [listener];
        Assoc(Listed(m, h), Copies(listener, n), [listener]);
      }
    }
  }

  /**
   * Removing a listener from a list of objects leaves the same objects
   * listed and leaves the lists of objects not named alone.
   */
  lemma {:induction false} WithoutListenerKeeps(m: map<Handle, seq<ListenerId>>, hs: seq<Handle>, listener: ListenerId, h: Handle)
    ensures h in WithoutListener(m, hs, listener) <==> h in m
    ensures h !in hs ==> Listed(WithoutListener(m, hs, listener), h) == Listed(m, h)
    decreases |hs|
  {
    if |hs| > 0 {
      WithoutListenerKeeps(m, hs[..|hs| - 1], listener, h);
      CountLast(hs, h);
    }
  }

  /**
   * Removing a listener from a list of objects takes from each named
   * object's list as many copies of the listener as the object is named,
   * as far as it has them, and nothing else.
   */
  lemma {:induction false} WithoutListenerMeaning(m: map<Handle, seq<ListenerId>>, hs: seq<Handle>, listener: ListenerId, h: Handle)
    ensures multiset(Listed(WithoutListener(m, hs, listener), h)) ==
            multiset(Listed(m, h)) - multiset(Copies(listener, multiset(hs)[h]))
    decreases |hs|
  {
    if |hs| == 0 {
      assert Copies(listener, multiset(hs)[h]) == [];
    } else {
      var init := hs[..|hs| - 1];
      var last := hs[|hs| - 1];
      var before := WithoutListener(m, init, listener);
      WithoutListenerMeaning(m, init, listener, h);
      CountLast(hs, h);
      if last == h {
        var counted: multiset<Handle> := multiset(init);
        var n := counted[h];
        assert Copies(listener, n + 1) == Copies(listener, n) + [listener];
        assert multiset(Copies(listener, n + 1)) == multiset(Copies(listener, n)) + multiset{listener};
        MinusTwice(multiset(Listed(m, h)), multiset(Copies(listener, n)), listener);
        if h !in before {
          WithoutListenerKeeps(m, init, listener, h);
          assert Listed(m, h) == [];
        }
      }
    }
  }

  lemma WithoutListenerStep(m: map<Handle, seq<ListenerId>>, hs: seq<Handle>, i: nat, listener: ListenerId)
    requires i < |hs|
    ensures WithoutListener(m, hs[..i + 1], listener) ==
      var before := WithoutListener(m, hs[..i], listener);
      if hs[i] in before then before[hs[i] := RemoveFirst(before[hs[i]], listener)] else before
  {
    assert hs[..i + 1][..i] == hs[..i];
  }

  /** Clearing the listeners of a list of objects removes exactly those objects' lists. */
  function Cleared(m: map<Handle, seq<ListenerId>>, hs: seq<Handle>): (r: map<Handle, seq<ListenerId>>)
    ensures r == m - (set h | h in hs)
    decreases |hs|
  {
    if |hs| == 0 then m else Cleared(m, hs[..|hs| - 1]) - {hs[|hs| - 1]}
  }

  /**
   * addUpdateListener: at least one object; the listener is added to each
   * object's list in turn. This does not subscribe anything.
   */
  method AddUpdateListener(dreg: DataRegistry, data: OneOrMany<Handle>, listener: ListenerId) returns (r: Outcome)
    modifies dreg
    ensures r == RequireObjects("data", data)
    ensures dreg.updatedListeners ==
      if r.Pass? then WithListener(old(dreg.updatedListeners), NormalizeArrayArg(data), listener)
      else old(dreg.updatedListeners)
    ensures dreg.versions == old(dreg.versions) && dreg.objectKeys == old(dreg.objectKeys)
    ensures dreg.ctorToClassKey == old(dreg.ctorToClassKey)
  {
    r := RequireObjects("data", data);
    if r.Fail? {
      return;
    }
    var objects := NormalizeArrayArg(data);
    for i := 0 to |objects|
      invariant dreg.updatedListeners == WithListener(old(dreg.updatedListeners), objects[..i], listener)
      invariant dreg.versions == old(dreg.versions) && dreg.objectKeys == old(dreg.objectKeys)
      invariant dreg.ctorToClassKey == old(dreg.ctorToClassKey)
    {
      assert objects[..i + 1][..i] == objects[..i];
      dreg.AddUpdatedListener(objects[i], listener);
    }
    assert objects[..|objects|] == objects;
  }

  /**
   * removeUpdateListener: at least one object; the listener is removed
   * from each object's list in turn. This does not unsubscribe anything.
   */
  method RemoveUpdateListener(dreg: DataRegistry, data: OneOrMany<Handle>, listener: ListenerId) returns (r: Outcome)
    modifies dreg
    ensures r == RequireObjects("data", data)
    ensures dreg.updatedListeners ==
      if r.Pass? then WithoutListener(old(dreg.updatedListeners), NormalizeArrayArg(data), listener)
      else old(dreg.updatedListeners)
    ensures dreg.versions == old(dreg.versions) && dreg.objectKeys == old(dreg.objectKeys)
    ensures dreg.ctorToClassKey == old(dreg.ctorToClassKey)
  {
    r := RequireObjects("data", data);
    if r.Fail? {
      return;
    }
    var objects := NormalizeArrayArg(data);
    for i := 0 to |objects|
      invariant dreg.updatedListeners == WithoutListener(old(dreg.updatedListeners), objects[..i], listener)
      invariant dreg.versions == old(dreg.versions) && dreg.objectKeys == old(dreg.objectKeys)
      invariant dreg.ctorToClassKey == old(dreg.ctorToClassKey)
    {
      WithoutListenerStep(old(dreg.updatedListeners), objects, i, listener);
      dreg.RemoveUpdatedListener(objects[i], listener);
    }
    assert objects[..|objects|] == objects;
  }

  /**
   * clearUpdateListeners: at least one object; each object's list is
   * dropped. This does not unsubscribe anything.
   */
  method ClearUpdateListeners(dreg: DataRegistry, data: OneOrMany<Handle>) returns (r: Outcome)
    modifies dreg
    ensures r == RequireObjects("data", data)
    ensures dreg.updatedListeners ==
      if r.Pass? then Cleared(old(dreg.updatedListeners), NormalizeArrayArg(data)) else old(dreg.updatedListeners)
    ensures dreg.versions == old(dreg.versions) && dreg.objectKeys == old(dreg.objectKeys)
    ensures dreg.ctorToClassKey == old(dreg.ctorToClassKey)
  {
    r := RequireObjects("data", data);
    if r.Fail? {
      return;
    }
    var objects := NormalizeArrayArg(data);
    for i := 0 to |objects|
      invariant dreg.updatedListeners == Cleared(old(dreg.updatedListeners), objects[..i])
      invariant dreg.versions == old(dreg.versions) && dreg.objectKeys == old(dreg.objectKeys)
      invariant dreg.ctorToClassKey == old(dreg.ctorToClassKey)
    {
      assert objects[..i + 1][..i] == objects[..i];
      dreg.ClearUpdatedListeners(objects[i]);
    }
    assert objects[..|objects|] == objects;
  }

  // ---------------------------------------------------------------------
  // Data update subscriptions.

  /**
   * subscribeUpdatesAsync (`subscribe`) and unsubscribeUpdatesAsync: at
   * least one acceptable object; one request naming every object's key,
   * in order, goes to their warp, and its reply must be OK. Nothing local
   * changes.
   */
  method UpdateSubscription(heap: Heap, dreg: DataRegistry, sreg: ServiceRegistry, wreg: WarpRegistry,
                            platform: Platform, logContext: string, data: OneOrMany<Handle>, subscribe: bool)
    returns (r: Outcome)
    requires wreg.Valid() && platform.Valid()
    modifies wreg.riverClients, platform
    ensures wreg.Valid() && platform.Valid()
    ensures RequireObjects("data", data).Fail? ==> r == Fail(Falsy("data")) && platform.sent == old(platform.sent)
    ensures RequireObjects("data", data).Pass? && DataAndKeys(EnvOf(heap, dreg, sreg), data).Err? ==>
      r == Fail(DataAndKeys(EnvOf(heap, dreg, sreg), data).error) && platform.sent == old(platform.sent)
    ensures r.Pass? ==>
      DataAndKeys(EnvOf(heap, dreg, sreg), data).Ok? &&
      var keys := DataAndKeys(EnvOf(heap, dreg, sreg), data).value.keys;
      DataUpdatesSpec(logContext, keys, subscribe).Ok? &&
      |platform.sent| == |old(platform.sent)| + 1 &&
      platform.sent[|old(platform.sent)|].1 == DataUpdatesSpec(logContext, keys, subscribe).value
  {
    r := RequireObjects("data", data);
    if r.Fail? {
      return;
    }
    var collected := GetDataAndKeys(EnvOf(heap, dreg, sreg), data);
    if collected.Err? {
      return Fail(collected.error);
    }
    var request := CreateDataUpdatesRequest(logContext, collected.value.keys, subscribe);
    var response := Call(wreg, platform, collected.value.warpKey, request);
    if response.Err? {
      return Fail(response.error);
    }
    r := Pass;
  }
}
