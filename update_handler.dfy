/**
 * The handlers of the two messages the platform pushes. A data update's
 * deltas are merged, in order, into a tracker. A Message event is built
 * on a tracker of its own: its bundled deltas are merged first, then its
 * properties are read into a new event object, the event is queued once
 * for the listeners of its source, and the tracker is applied once.
 */
module UpdateHandling {
  import opened Wrappers
  import opened Unsigned
  import opened Keys
  import opened JsHeap
  import opened Wire
  import opened Registry
  import opened Tracking
  import opened ModelTypes
  import opened Decoding
  import opened Merging
  import opened River
  import opened Sync

  // ---------------------------------------------------------------------
  // The key an event is raised on.

  /**
   * The instance key of an event: its message class, and the Data or
   * Service named as its source. Any other source is refused.
   */
  function EventInstanceKey(warpKey: WarpKey, ev: MessageEvent): (r: Result<MessageInstanceKey>)
    ensures r.Ok? <==>
      ev.classId != 0 && !ev.source.NoSource? && ev.source.ref.classId != 0 && ev.source.ref.primaryKey != ""
    ensures ev.classId != 0 && ev.source.NoSource? ==> r == Err(UnknownSourceType)
    ensures r.Ok? ==> r.value.messageClassKey == ClassKey(warpKey, ev.classId)
    ensures r.Ok? ==> (r.value.sourceKey.DataSource? <==> ev.source.FromData?)
    ensures r.Ok? && ev.source.FromData? ==>
      r.value.sourceKey.dataKey == DataKey(ClassKey(warpKey, ev.source.ref.classId), ev.source.ref.primaryKey)
    ensures r.Ok? && ev.source.FromService? ==>
      r.value.sourceKey.serviceKey == ServiceKey(ClassKey(warpKey, ev.source.ref.classId), ev.source.ref.primaryKey)
  {
    match NewClassKey(warpKey, ev.classId)
    case Err(e) => Err(e)
    case Ok(messageClassKey) =>
      match ev.source
      case FromData(ref) =>
        (match NewClassKey(warpKey, ref.classId)
         case Err(e) => Err(e)
         case Ok(classKey) =>
           (match NewDataKey(classKey, ref.primaryKey)
            case Err(e) => Err(e)
            case Ok(dataKey) => Ok(MessageInstanceKey(messageClassKey, DataSource(dataKey)))))
      case FromService(ref) =>
        (match NewClassKey(warpKey, ref.classId)
         case Err(e) => Err(e)
         case Ok(classKey) =>
           (match NewServiceKey(classKey, ref.primaryKey)
            case Err(e) => Err(e)
            case Ok(serviceKey) => Ok(MessageInstanceKey(messageClassKey, ServiceSource(serviceKey)))))
      case NoSource => Err(UnknownSourceType)
  }

  /**
   * Listeners are found by the text of the instance key, and that text
   * names one key only: an event reaches exactly the listeners of its own
   * class and source.
   */
  lemma EventReachesOnlyItsSource(warpKey: WarpKey, ev: MessageEvent, k: MessageInstanceKey)
    requires EventInstanceKey(warpKey, ev).Ok?
    requires MessageInstanceKeyValue(k) == MessageInstanceKeyValue(EventInstanceKey(warpKey, ev).value)
    ensures k.messageClassKey == ClassKey(warpKey, ev.classId)
    ensures ev.source.FromData? ==> k.sourceKey == DataSource(DataKey(ClassKey(warpKey, ev.source.ref.classId), ev.source.ref.primaryKey))
    ensures ev.source.FromService? ==> k.sourceKey == ServiceSource(ServiceKey(ClassKey(warpKey, ev.source.ref.classId), ev.source.ref.primaryKey))
  {
    MessageInstanceKeyValueInjective(k, EventInstanceKey(warpKey, ev).value);
  }

  // ---------------------------------------------------------------------
  // handleDataUpdateMessage.

  /** The first n deltas of a message are all present. */
  predicate PresentUpTo(deltas: seq<Option<DataDelta>>, n: nat)
  {
    n <= |deltas| && forall i :: 0 <= i < n ==> deltas[i].Some?
  }

  /** One delta of the message as a relation: a missing one is invalid data and changes nothing. */
  predicate MergedOne(sreg: ServiceRegistry, logContext: string, warpKey: WarpKey, delta: Option<DataDelta>, fuel: nat,
                      s: Store, r: Outcome, s1: Store)
    reads sreg, sreg.classes
  {
    match delta
    case None => r == Fail(InvalidData) && s1 == s
    case Some(d) => Merged(sreg, logContext, warpKey, d, fuel, s, r, s1)
  }

  /**
   * The deltas merged one after the other, in order, each passing:
   * `stores` is the chain of stores they lead through, from the first to
   * the last.
   */
  predicate MergedChain(sreg: ServiceRegistry, logContext: string, warpKey: WarpKey, deltas: seq<Option<DataDelta>>,
                        fuel: nat, stores: seq<Store>)
    reads sreg, sreg.classes
  {
    |stores| == |deltas| + 1 &&
    forall i :: 0 <= i < |deltas| ==> MergedStep(sreg, logContext, warpKey, deltas, fuel, stores, i)
  }

  /** Step `i` of a chain: delta `i` passes and leads from store `i` to store `i + 1`. */
  predicate MergedStep(sreg: ServiceRegistry, logContext: string, warpKey: WarpKey, deltas: seq<Option<DataDelta>>,
                       fuel: nat, stores: seq<Store>, i: nat)
    requires i < |deltas| && |stores| == |deltas| + 1
    reads sreg, sreg.classes
  {
    MergedOne(sreg, logContext, warpKey, deltas[i], fuel, stores[i], Pass, stores[i + 1])
  }

  /** One more passing delta extends a chain by the store it leads to. */
  lemma MergedChainSnoc(sreg: ServiceRegistry, logContext: string, warpKey: WarpKey, deltas: seq<Option<DataDelta>>,
                        delta: Option<DataDelta>, fuel: nat, stores: seq<Store>, next: Store)
    requires MergedChain(sreg, logContext, warpKey, deltas, fuel, stores)
    requires MergedOne(sreg, logContext, warpKey, delta, fuel, stores[|deltas|], Pass, next)
    ensures MergedChain(sreg, logContext, warpKey, deltas + [delta], fuel, stores + [next])
  {
    var ds, st := deltas + [delta], stores + [next];
    forall i | 0 <= i < |ds|
      ensures MergedStep(sreg, logContext, warpKey, ds, fuel, st, i)
    {
      if i < |deltas| {
        assert MergedStep(sreg, logContext, warpKey, deltas, fuel, stores, i);
        assert ds[i] == deltas[i] && st[i] == stores[i] && st[i + 1] == stores[i + 1];
      }
    }
  }

  /** Only present deltas can be merged with success. */
  lemma MergedChainPresent(sreg: ServiceRegistry, logContext: string, warpKey: WarpKey, deltas: seq<Option<DataDelta>>,
                           fuel: nat, stores: seq<Store>)
    requires MergedChain(sreg, logContext, warpKey, deltas, fuel, stores)
    ensures PresentUpTo(deltas, |deltas|)
  {
    forall i | 0 <= i < |deltas|
      ensures deltas[i].Some?
    {
      assert MergedStep(sreg, logContext, warpKey, deltas, fuel, stores, i);
    }
  }

  /** The first n steps of a chain are a chain. */
  lemma MergedChainPrefix(sreg: ServiceRegistry, logContext: string, warpKey: WarpKey, deltas: seq<Option<DataDelta>>,
                          fuel: nat, stores: seq<Store>, n: nat)
    requires MergedChain(sreg, logContext, warpKey, deltas, fuel, stores) && n <= |deltas|
    ensures MergedChain(sreg, logContext, warpKey, deltas[..n], fuel, stores[..n + 1])
  {
    var ds, st := deltas[..n], stores[..n + 1];
    forall i | 0 <= i < n
      ensures MergedStep(sreg, logContext, warpKey, ds, fuel, st, i)
    {
      assert MergedStep(sreg, logContext, warpKey, deltas, fuel, stores, i);
      assert ds[i] == deltas[i] && st[i] == stores[i] && st[i + 1] == stores[i + 1];
    }
  }

  /** A delta that is present and names `key`: its class id and primary key give a key with the same value. */
  predicate Names(warpKey: WarpKey, delta: Option<DataDelta>, key: DataKey)
  {
    delta.Some? && DeltaKey(warpKey, delta.value.classId, delta.value.primaryKey).Ok? &&
    DataKeyValue(DeltaKey(warpKey, delta.value.classId, delta.value.primaryKey).value) == DataKeyValue(key)
  }

  /** The version a delta contributes to the run of `key`: its own when it names the key, none otherwise. */
  function VersionIfNames(warpKey: WarpKey, delta: Option<DataDelta>, key: DataKey): (vs: seq<Unsigned>)
    requires delta.Some? ==> ValidLong(delta.value.version)
    ensures Names(warpKey, delta, key) <==> |vs| == 1
    ensures Names(warpKey, delta, key) ==> vs == [FromLong(delta.value.version)]
  {
    if Names(warpKey, delta, key) then [FromLong(delta.value.version)] else []
  }

  /** The versions carried by the deltas of a message that name `key`, in message order. */
  function VersionsFor(warpKey: WarpKey, deltas: seq<Option<DataDelta>>, key: DataKey): (vs: seq<Unsigned>)
    requires DeltasWellFormed(deltas)
    ensures |vs| <= |deltas|
    decreases |deltas|
  {
    if deltas == [] then []
    else
      var n := |deltas| - 1;
      assert DeltasWellFormed(deltas[..n]) by {
        forall i | 0 <= i < n && deltas[..n][i].Some? ensures ValidLong(deltas[..n][i].value.version) {
          assert deltas[..n][i] == deltas[i];
        }
      }
      VersionsFor(warpKey, deltas[..n], key) + VersionIfNames(warpKey, deltas[n], key)
  }

  /**
   * One passing merge moves the known version of `key` as `Track` does
   * over the version it contributes, and keeps the store separate.
   */
  lemma TracksStep(sreg: ServiceRegistry, logContext: string, warpKey: WarpKey, delta: Option<DataDelta>, fuel: nat,
                   s: Store, s1: Store, key: DataKey, known: Option<Unsigned>, vs: seq<Unsigned>)
    requires MergedOne(sreg, logContext, warpKey, delta, fuel, s, Pass, s1) && Separate(s)
    requires delta.Some? ==> ValidLong(delta.value.version)
    requires Names(warpKey, delta, key) ==> !delta.value.deleted
    requires Track(known, vs).Some? && KnownIn(s, key) == Track(known, vs).value
    requires Track(known, vs + VersionIfNames(warpKey, delta, key)).Some?
    ensures Separate(s1)
    ensures KnownIn(s1, key) == Track(known, vs + VersionIfNames(warpKey, delta, key)).value
    ensures !Names(warpKey, delta, key) ==> InstanceIn(s1, key) == InstanceIn(s, key)
  {
    var d := delta.value;
    MergeKeepsSeparate(sreg, logContext, warpKey, d, fuel, s, s1);
    var ws := vs + VersionIfNames(warpKey, delta, key);
    if Names(warpKey, delta, key) {
      var dk := DeltaKey(warpKey, d.classId, d.primaryKey).value;
      assert KnownIn(s, dk) == KnownIn(s, key) && KnownIn(s1, dk) == KnownIn(s1, key);
      MergeOwnKnown(sreg, logContext, warpKey, d, fuel, s, s1);
      assert ws[..|ws| - 1] == vs;
    } else {
      MergeKeepsOthers(sreg, logContext, warpKey, d, fuel, s, Pass, s1, key);
      assert ws == vs;
    }
  }

  /**
   * Along a chain of merges, an object's known version follows the version
   * state machine over the deltas that name it, the deltas naming other
   * keys leaving it alone: when none of them deletes and `Track` accepts
   * them all, the object ends at the version `Track` gives. A key no delta
   * names keeps its instance and version.
   */
  lemma {:induction false} ChainTracks(sreg: ServiceRegistry, logContext: string, warpKey: WarpKey,
                                       deltas: seq<Option<DataDelta>>, fuel: nat, stores: seq<Store>, key: DataKey)
    requires DeltasWellFormed(deltas) && MergedChain(sreg, logContext, warpKey, deltas, fuel, stores)
    requires Separate(stores[0])
    requires forall i :: 0 <= i < |deltas| && Names(warpKey, deltas[i], key) ==> !deltas[i].value.deleted
    requires Track(KnownIn(stores[0], key), VersionsFor(warpKey, deltas, key)).Some?
    ensures Separate(stores[|deltas|])
    ensures KnownIn(stores[|deltas|], key) == Track(KnownIn(stores[0], key), VersionsFor(warpKey, deltas, key)).value
    ensures VersionsFor(warpKey, deltas, key) == [] ==> InstanceIn(stores[|deltas|], key) == InstanceIn(stores[0], key)
    decreases |deltas|
  {
    if |deltas| > 0 {
      var n := |deltas| - 1;
      var init := deltas[..n];
      assert DeltasWellFormed(init) by {
        forall i | 0 <= i < n && init[i].Some? ensures ValidLong(init[i].value.version) {
          assert init[i] == deltas[i];
        }
      }
      var known0 := KnownIn(stores[0], key);
      var vs := VersionsFor(warpKey, deltas, key);
      var vsInit := VersionsFor(warpKey, init, key);
      var extra := VersionIfNames(warpKey, deltas[n], key);
      assert vs == vsInit + extra;
      assert Track(known0, vsInit).Some? by {
        if |extra| == 1 {
          assert vs[..|vs| - 1] == vsInit;
        } else {
          assert vs == vsInit;
        }
      }
      MergedChainPrefix(sreg, logContext, warpKey, deltas, fuel, stores, n);
      var st := stores[..n + 1];
      assert st[0] == stores[0] && st[n] == stores[n];
      forall i | 0 <= i < n && Names(warpKey, init[i], key) ensures !init[i].value.deleted {
        assert init[i] == deltas[i];
      }
      ChainTracks(sreg, logContext, warpKey, init, fuel, st, key);
      assert MergedStep(sreg, logContext, warpKey, deltas, fuel, stores, n);
      TracksStep(sreg, logContext, warpKey, deltas[n], fuel, stores[n], stores[n + 1], key, known0, vsInit);
      assert vsInit == [] || vs != [];
    }
  }

  /** The deltas of several messages, one message after the other; a message of no known kind has none. */
  function AllDeltas(messages: seq<UserMessage>): (ds: seq<Option<DataDelta>>)
    decreases |messages|
  {
    if messages == [] then []
    else
      var last := messages[|messages| - 1];
      AllDeltas(messages[..|messages| - 1]) + (if last.NoMessage? then [] else last.deltas)
  }

  /** Two chains of merges, the second starting where the first ends, make one. */
  lemma ChainsJoin(sreg: ServiceRegistry, logContext: string, warpKey: WarpKey, ds1: seq<Option<DataDelta>>,
                   ds2: seq<Option<DataDelta>>, fuel: nat, st1: seq<Store>, st2: seq<Store>)
    requires MergedChain(sreg, logContext, warpKey, ds1, fuel, st1)
    requires MergedChain(sreg, logContext, warpKey, ds2, fuel, st2)
    requires st2[0] == st1[|ds1|]
    ensures MergedChain(sreg, logContext, warpKey, ds1 + ds2, fuel, st1 + st2[1..])
  {
    var ds, st := ds1 + ds2, st1 + st2[1..];
    forall i | 0 <= i < |ds|
      ensures MergedStep(sreg, logContext, warpKey, ds, fuel, st, i)
    {
      if i < |ds1| {
        assert MergedStep(sreg, logContext, warpKey, ds1, fuel, st1, i);
        assert ds[i] == ds1[i] && st[i] == st1[i] && st[i + 1] == st1[i + 1];
      } else {
        var j := i - |ds1|;
        assert MergedStep(sreg, logContext, warpKey, ds2, fuel, st2, j);
        assert ds[i] == ds2[j] && st[i] == st2[j] && st[i + 1] == st2[j + 1];
      }
    }
  }

  /**
   * handleDataUpdateMessage: the deltas of the message are merged into the
   * caller's tracker, in message order, and nothing is applied: no
   * listener is called and no message is queued. The first `merged`
   * deltas pass and lead through the chain `stores` from the old store;
   * the loop stops at the first delta that fails (a missing one is
   * invalid data), whose own step leads from the chain's last store to
   * the final one.
   */
  method HandleDataUpdate(heap: Heap, tracker: Tracker, dreg: DataRegistry, sreg: ServiceRegistry,
                          logContext: string, warpKey: WarpKey, deltas: seq<Option<DataDelta>>, fuel: nat)
    returns (r: Outcome, ghost merged: nat, ghost stores: seq<Store>)
    requires DeltasWellFormed(deltas) && Coherent(heap, dreg)
    modifies heap, tracker, dreg, dreg.objects
    ensures Coherent(heap, dreg)
    ensures logContext == "" ==>
      r == Fail(Falsy("logContext")) && heap.objects == old(heap.objects) && tracker.resolution == old(tracker.resolution) &&
      tracker.updates == old(tracker.updates) && tracker.deletes == old(tracker.deletes)
    ensures PresentUpTo(deltas, merged)
    ensures MergedChain(sreg, logContext, warpKey, deltas[..merged], fuel, stores) &&
            stores[0] == old(StoreOf(heap, tracker, dreg))
    ensures r.Pass? ==> merged == |deltas| && StoreOf(heap, tracker, dreg) == stores[merged]
    ensures r.Fail? && logContext != "" ==>
      merged < |deltas| &&
      MergedOne(sreg, logContext, warpKey, deltas[merged], fuel, stores[merged], r, StoreOf(heap, tracker, dreg))
    ensures heap.trace == old(heap.trace) && tracker.messages == old(tracker.messages)
    ensures Narrowed(old(dreg.updatedListeners), dreg.updatedListeners)
  {
    merged := 0;
    stores := [StoreOf(heap, tracker, dreg)];
    if logContext == "" {
      return Fail(Falsy("logContext")), merged, stores;
    }
    var i := 0;
    while i < |deltas|
      invariant i <= |deltas| && merged == i && PresentUpTo(deltas, i)
      invariant MergedChain(sreg, logContext, warpKey, deltas[..i], fuel, stores)
      invariant stores[0] == old(StoreOf(heap, tracker, dreg)) && stores[i] == StoreOf(heap, tracker, dreg)
      invariant Coherent(heap, dreg)
      invariant heap.trace == old(heap.trace) && tracker.messages == old(tracker.messages)
      invariant Narrowed(old(dreg.updatedListeners), dreg.updatedListeners)
    {
      var done;
      done, stores := MergeNext(heap, tracker, dreg, sreg, logContext, warpKey, deltas, i, fuel, stores);
      if done.Fail? {
        return done, merged, stores;
      }
      i := i + 1;
      merged := i;
    }
    assert deltas[..i] == deltas;
    r := Pass;
  }

  /**
   * Delta `i` merged after the first `i` passed: the chain grows by the
   * store it leads to, or the delta fails from the chain's last store.
   */
  method MergeNext(heap: Heap, tracker: Tracker, dreg: DataRegistry, sreg: ServiceRegistry, logContext: string,
                   warpKey: WarpKey, deltas: seq<Option<DataDelta>>, i: nat, fuel: nat, ghost stores: seq<Store>)
    returns (r: Outcome, ghost stores1: seq<Store>)
    requires i < |deltas| && DeltasWellFormed(deltas) && Coherent(heap, dreg)
    requires MergedChain(sreg, logContext, warpKey, deltas[..i], fuel, stores) && stores[i] == StoreOf(heap, tracker, dreg)
    modifies heap, tracker, dreg, dreg.objects
    ensures Coherent(heap, dreg)
    ensures r.Pass? ==>
      deltas[i].Some? && MergedChain(sreg, logContext, warpKey, deltas[..i + 1], fuel, stores1) &&
      stores1[..i + 1] == stores && stores1[i + 1] == StoreOf(heap, tracker, dreg)
    ensures r.Fail? ==>
      stores1 == stores && MergedOne(sreg, logContext, warpKey, deltas[i], fuel, stores[i], r, StoreOf(heap, tracker, dreg))
    ensures heap.trace == old(heap.trace) && tracker.messages == old(tracker.messages)
    ensures Narrowed(old(dreg.updatedListeners), dreg.updatedListeners)
  {
    stores1 := stores;
    r := MergeOne(heap, tracker, dreg, sreg, logContext, warpKey, deltas[i], fuel);
    if r.Fail? {
      return;
    }
    MergedChainSnoc(sreg, logContext, warpKey, deltas[..i], deltas[i], fuel, stores, StoreOf(heap, tracker, dreg));
    stores1 := stores + [StoreOf(heap, tracker, dreg)];
    assert deltas[..i + 1] == deltas[..i] + [deltas[i]];
  }

  /** One delta of the message: a missing one is invalid data, a present one is merged. */
  method MergeOne(heap: Heap, tracker: Tracker, dreg: DataRegistry, sreg: ServiceRegistry,
                  logContext: string, warpKey: WarpKey, delta: Option<DataDelta>, fuel: nat) returns (r: Outcome)
    requires delta.Some? ==> ValidLong(delta.value.version)
    requires Coherent(heap, dreg)
    modifies heap, tracker, dreg, dreg.objects
    ensures Coherent(heap, dreg)
    ensures MergedOne(sreg, logContext, warpKey, delta, fuel, old(StoreOf(heap, tracker, dreg)), r, StoreOf(heap, tracker, dreg))
    ensures heap.trace == old(heap.trace) && tracker.messages == old(tracker.messages)
    ensures Narrowed(old(dreg.updatedListeners), dreg.updatedListeners)
  {
    if delta.None? {
      return Fail(InvalidData);
    }
    r := MergeDelta(heap, tracker, dreg, sreg, logContext, warpKey, delta.value, fuel);
  }

  /** The store a fresh tracker starts from: the heap and the registry as they are, and empty queues. */
  ghost function FreshStore(heap: Heap, dreg: DataRegistry): Store
    reads heap, dreg, dreg.classes, dreg.objects
  {
    Store(heap.objects, [], [], [], dreg.classes.entries, dreg.objects.entries, dreg.versions)
  }

  /**
   * handleDataUpdateMessageWithTrackerAsync: the deltas are merged into a
   * fresh tracker, which is then applied once. A missing delta fails
   * before any listener is called. On success every delta was merged, in
   * order, through the chain `stores` from a fresh tracker's store to the
   * store `afterMerge`; the update listeners then hear of
   * at least the objects the merge queued, every key the merge queued for
   * deletion is gone from the registry, and no Message listener is called.
   */
  method HandleDataUpdateWithTracker(heap: Heap, dreg: DataRegistry, sreg: ServiceRegistry, mreg: MessageRegistry,
                                     wreg: WarpRegistry, platform: Platform, logContext: string, warpKey: WarpKey,
                                     deltas: seq<Option<DataDelta>>, fuel: nat)
    returns (r: Outcome, ghost stores: seq<Store>, ghost notified: seq<DataUpdatedEvent>,
             ghost heard: map<Handle, seq<ListenerId>>)
    requires DeltasWellFormed(deltas) && Coherent(heap, dreg) && wreg.Valid() && platform.Valid()
    modifies heap, dreg, dreg.objects, wreg.riverClients, platform
    ensures Coherent(heap, dreg) && wreg.Valid() && platform.Valid()
    ensures logContext == "" ==> r == Fail(Falsy("logContext")) && heap.objects == old(heap.objects)
    ensures !PresentUpTo(deltas, |deltas|) ==> r.Fail? && heap.trace == old(heap.trace)
    ensures r.Pass? ==>
      MergedChain(sreg, logContext, warpKey, deltas, fuel, stores) && stores[0] == old(FreshStore(heap, dreg)) &&
      var afterMerge := stores[|deltas|];
      afterMerge.updates <= notified &&
      (forall k :: k in afterMerge.deletes ==> dreg.TryGetInstance(k) == None) &&
      Narrowed(old(dreg.updatedListeners), heard) &&
      heap.trace == old(heap.trace) + UpdateTrace(notified, heard)
  {
    notified := [];
    heard := dreg.updatedListeners;
    var merged, tracker;
    merged, tracker, stores := MergeFresh(heap, dreg, sreg, logContext, warpKey, deltas, fuel);
    if merged.Fail? {
      return merged, stores, notified, heard;
    }
    heard := dreg.updatedListeners;
    r, notified := ApplyMerged(heap, tracker, dreg, sreg, mreg, wreg, platform, logContext, fuel);
  }

  /**
   * A merged tracker applied once, holding at most one event: the event's
   * listeners are called first, then the update listeners hear of at
   * least the updates the tracker held, and every key it held for
   * deletion is gone from the registry.
   */
  method ApplyMerged(heap: Heap, tracker: Tracker, dreg: DataRegistry, sreg: ServiceRegistry, mreg: MessageRegistry,
                     wreg: WarpRegistry, platform: Platform, logContext: string, fuel: nat)
    returns (r: Outcome, ghost notified: seq<DataUpdatedEvent>)
    requires |tracker.messages| <= 1
    requires Coherent(heap, dreg) && wreg.Valid() && platform.Valid()
    modifies heap, tracker, dreg, dreg.objects, wreg.riverClients, platform
    ensures Coherent(heap, dreg) && wreg.Valid() && platform.Valid()
    ensures unchanged(sreg, sreg.classes) && old(platform.sent) <= platform.sent
    ensures r.Pass? ==>
      old(tracker.updates) <= notified &&
      (forall k :: k in old(tracker.deletes) ==> dreg.TryGetInstance(k) == None) &&
      heap.trace == old(heap.trace) +
        (if old(tracker.messages) == [] then [] else EventCalls(old(tracker.messages)[0], mreg.listeners.entries)) +
        UpdateTrace(notified, old(dreg.updatedListeners))
    ensures r.Pass? && old(tracker.messages) == [] ==>
      heap.trace == old(heap.trace) + UpdateTrace(notified, old(dreg.updatedListeners))
  {
    ghost var removed;
    r, notified, removed := ApplyOnce(heap, tracker, dreg, sreg, mreg, wreg, platform, logContext, fuel);
    if old(tracker.messages) == [] {
      assert MessageTrace([], mreg.listeners.entries) == [];
    } else {
      assert old(tracker.messages) == [old(tracker.messages)[0]];
      MessageTraceSingle(old(tracker.messages)[0], mreg.listeners.entries);
    }
  }

  /**
   * A fresh tracker with the deltas of the message merged into it, as
   * `HandleDataUpdate` merges them, and nothing applied. On success the
   * deltas were merged in order through the chain `stores`, from the
   * store a fresh tracker starts from to the new one.
   */
  method MergeFresh(heap: Heap, dreg: DataRegistry, sreg: ServiceRegistry, logContext: string, warpKey: WarpKey,
                    deltas: seq<Option<DataDelta>>, fuel: nat)
    returns (r: Outcome, tracker: Tracker, ghost stores: seq<Store>)
    requires DeltasWellFormed(deltas) && Coherent(heap, dreg)
    modifies heap, dreg, dreg.objects
    ensures fresh(tracker) && Coherent(heap, dreg)
    ensures logContext == "" ==> r == Fail(Falsy("logContext")) && heap.objects == old(heap.objects)
    ensures !PresentUpTo(deltas, |deltas|) ==> r.Fail?
    ensures r.Pass? ==>
      MergedChain(sreg, logContext, warpKey, deltas, fuel, stores) && stores[0] == old(FreshStore(heap, dreg)) &&
      StoreOf(heap, tracker, dreg) == stores[|deltas|]
    ensures heap.trace == old(heap.trace) && tracker.messages == []
    ensures Narrowed(old(dreg.updatedListeners), dreg.updatedListeners)
  {
    tracker := new Tracker();
    ghost var merged;
    r, merged, stores := HandleDataUpdate(heap, tracker, dreg, sreg, logContext, warpKey, deltas, fuel);
    if r.Pass? {
      assert deltas[..merged] == deltas;
    }
  }

  // ---------------------------------------------------------------------
  // handleMessageMessageWithTrackerAsync.

  /** The event's properties, read into the event object as the items of a plain object are. */
  function EventItems(ev: MessageEvent): (items: seq<Item>)
    ensures |items| == |ev.properties|
    ensures forall i :: 0 <= i < |items| ==> items[i] == PropertyItem(ev.properties[i])
  {
    ItemsOf(ObjectValue(ev.properties))
  }

  /**
   * handleMessageMessageWithTrackerAsync. The event and its instance key
   * are read first and the event object is created; then, on a tracker of
   * its own, the bundled deltas are merged, the event's properties are
   * read into the event object (a Data reference through a resolution
   * that assigns the instance, any other value at once), the event is
   * queued once, and the tracker is applied once. On success every delta
   * was merged, in order, through the chain `stores` from the heap with
   * the new event object; the event's properties decode on the chain's
   * last store; and the listeners of the event's instance key are called
   * with the event, before the update listeners hear of at least the
   * merged objects.
   */
  method HandleEvent(heap: Heap, dreg: DataRegistry, sreg: ServiceRegistry, mreg: MessageRegistry,
                     wreg: WarpRegistry, platform: Platform, logContext: string, warpKey: WarpKey,
                     event: Option<MessageEvent>, deltas: seq<Option<DataDelta>>, fuel: nat)
    returns (r: Outcome, instance: Handle, ghost stores: seq<Store>, ghost notified: seq<DataUpdatedEvent>,
             ghost heard: map<Handle, seq<ListenerId>>)
    requires DeltasWellFormed(deltas) && Coherent(heap, dreg) && wreg.Valid() && platform.Valid()
    modifies heap, dreg, dreg.objects, wreg.riverClients, platform
    ensures Coherent(heap, dreg) && wreg.Valid() && platform.Valid()
    ensures logContext == "" ==> r == Fail(Falsy("logContext")) && heap.objects == old(heap.objects)
    ensures logContext != "" && event.None? ==> r == Fail(InvalidData) && heap.objects == old(heap.objects)
    ensures logContext != "" && event.Some? && EventInstanceKey(warpKey, event.value).Err? ==>
      r == Fail(EventInstanceKey(warpKey, event.value).error) && heap.objects == old(heap.objects)
    ensures !PresentUpTo(deltas, |deltas|) ==> r.Fail? && heap.trace == old(heap.trace)
    ensures r.Pass? ==>
      event.Some? && EventInstanceKey(warpKey, event.value).Ok? &&
      instance == |old(heap.objects)| && old(mreg.GetCtor(ClassKey(warpKey, event.value.classId))).Ok? &&
      MergedChain(sreg, logContext, warpKey, deltas, fuel, stores) &&
      stores[0] == old(FreshStore(heap, dreg)).(objects := old(heap.objects) +
                     [MessageObj(old(mreg.GetCtor(ClassKey(warpKey, event.value.classId))).value, [])]) &&
      var afterMerge := stores[|deltas|];
      DecodeItems(sreg, logContext, warpKey, EventItems(event.value), instance,
                  DState(afterMerge.objects, afterMerge.pending), fuel).Ok? &&
      afterMerge.updates <= notified &&
      Narrowed(old(dreg.updatedListeners), heard) &&
      heap.trace == old(heap.trace) +
        EventCalls(Delivery(MessageInstanceKeyValue(EventInstanceKey(warpKey, event.value).value), instance), mreg.listeners.entries) +
        UpdateTrace(notified, heard)
  {
    instance := |heap.objects|;
    stores := [FreshStore(heap, dreg)];
    notified := [];
    heard := dreg.updatedListeners;
    if logContext == "" {
      return Fail(Falsy("logContext")), instance, stores, notified, heard;
    }
    if event.None? {
      return Fail(InvalidData), instance, stores, notified, heard;
    }
    var ev := event.value;
    var key := EventInstanceKey(warpKey, ev);
    if key.Err? {
      return Fail(key.error), instance, stores, notified, heard;
    }
    var made := CreateEvent(heap, dreg, mreg, ClassKey(warpKey, ev.classId));
    if made.Err? {
      return Fail(made.error), instance, stores, notified, heard;
    }
    r, stores, notified, heard := DeliverEvent(heap, dreg, sreg, mreg, wreg, platform, logContext, warpKey, ev, key.value,
                                                   instance, deltas, fuel);
  }

  /**
   * The part of handleMessageMessageWithTrackerAsync after the event
   * object exists: a tracker of its own takes the bundled deltas, then the
   * event's properties, then the event itself, and is applied once.
   */
  method DeliverEvent(heap: Heap, dreg: DataRegistry, sreg: ServiceRegistry, mreg: MessageRegistry,
                      wreg: WarpRegistry, platform: Platform, logContext: string, warpKey: WarpKey,
                      ev: MessageEvent, key: MessageInstanceKey, instance: Handle, deltas: seq<Option<DataDelta>>, fuel: nat)
    returns (r: Outcome, ghost stores: seq<Store>, ghost notified: seq<DataUpdatedEvent>,
             ghost heard: map<Handle, seq<ListenerId>>)
    requires logContext != ""
    requires DeltasWellFormed(deltas) && Coherent(heap, dreg) && wreg.Valid() && platform.Valid()
    modifies heap, dreg, dreg.objects, wreg.riverClients, platform
    ensures Coherent(heap, dreg) && wreg.Valid() && platform.Valid()
    ensures !PresentUpTo(deltas, |deltas|) ==> r.Fail? && heap.trace == old(heap.trace)
    ensures r.Pass? ==>
      MergedChain(sreg, logContext, warpKey, deltas, fuel, stores) && stores[0] == old(FreshStore(heap, dreg)) &&
      var afterMerge := stores[|deltas|];
      DecodeItems(sreg, logContext, warpKey, EventItems(ev), instance, DState(afterMerge.objects, afterMerge.pending), fuel).Ok? &&
      afterMerge.updates <= notified &&
      Narrowed(old(dreg.updatedListeners), heard) &&
      heap.trace == old(heap.trace) + EventCalls(Delivery(MessageInstanceKeyValue(key), instance), mreg.listeners.entries) +
        UpdateTrace(notified, heard)
  {
    notified := [];
    heard := dreg.updatedListeners;
    var prepared, tracker;
    prepared, tracker, stores := PrepareEvent(heap, dreg, sreg, logContext, warpKey, ev, key, instance, deltas, fuel);
    if prepared.Fail? {
      return prepared, stores, notified, heard;
    }
    heard := dreg.updatedListeners;
    r, notified := ApplyMerged(heap, tracker, dreg, sreg, mreg, wreg, platform, logContext, fuel);
  }

  /**
   * The event's own tracker, before it is applied: the bundled deltas are
   * merged first, through the chain `stores`; the event's properties are
   * read next, on its last store; and the event is queued last, once.
   */
  method PrepareEvent(heap: Heap, dreg: DataRegistry, sreg: ServiceRegistry, logContext: string, warpKey: WarpKey,
                      ev: MessageEvent, key: MessageInstanceKey, instance: Handle, deltas: seq<Option<DataDelta>>, fuel: nat)
    returns (r: Outcome, tracker: Tracker, ghost stores: seq<Store>)
    requires logContext != ""
    requires DeltasWellFormed(deltas) && Coherent(heap, dreg)
    modifies heap, dreg, dreg.objects
    ensures fresh(tracker) && Coherent(heap, dreg)
    ensures !PresentUpTo(deltas, |deltas|) ==> r.Fail?
    ensures r.Pass? ==>
      MergedChain(sreg, logContext, warpKey, deltas, fuel, stores) && stores[0] == old(FreshStore(heap, dreg)) &&
      var afterMerge := stores[|deltas|];
      (var d := DecodeItems(sreg, logContext, warpKey, EventItems(ev), instance, DState(afterMerge.objects, afterMerge.pending), fuel);
       d.Ok? && heap.objects == d.value.objects && tracker.resolution == d.value.pending) &&
      tracker.updates == afterMerge.updates && tracker.deletes == afterMerge.deletes &&
      tracker.messages == [Delivery(MessageInstanceKeyValue(key), instance)]
    ensures heap.trace == old(heap.trace)
    ensures Narrowed(old(dreg.updatedListeners), dreg.updatedListeners)
  {
    r, tracker, stores := MergeFresh(heap, dreg, sreg, logContext, warpKey, deltas, fuel);
    if r.Fail? {
      return;
    }
    r := FillEvent(heap, tracker, dreg, sreg, logContext, warpKey, ev, instance, fuel);
    if r.Fail? {
      return;
    }
    tracker.EnqueueMessage(key, instance);
  }

  /** createMessageInstance, keeping the registry's view of the heap. */
  method CreateEvent(heap: Heap, dreg: DataRegistry, mreg: MessageRegistry, classKey: ClassKey) returns (r: Result<Handle>)
    requires Coherent(heap, dreg)
    modifies heap
    ensures Coherent(heap, dreg)
    ensures r.Ok? <==> old(mreg.GetCtor(classKey)).Ok?
    ensures r.Ok? ==> r.value == |old(heap.objects)|
    ensures r.Ok? ==> heap.objects == old(heap.objects) + [MessageObj(old(mreg.GetCtor(classKey)).value, [])]
    ensures r.Err? ==> heap.objects == old(heap.objects)
    ensures heap.trace == old(heap.trace)
    ensures FreshStore(heap, dreg) == old(FreshStore(heap, dreg)).(objects := heap.objects)
  {
    ghost var objects0 := heap.objects;
    r := CreateMessageInstance(heap, mreg, classKey);
    AgreesKept(objects0, heap.objects, dreg.objectKeys);
  }

  /**
   * The event's properties read into the event object: each is decoded as
   * a property item of the object, which stores a plain value at once and
   * leaves a Data reference for resolution into the same property.
   */
  method FillEvent(heap: Heap, tracker: Tracker, dreg: DataRegistry, sreg: ServiceRegistry, logContext: string,
                   warpKey: WarpKey, ev: MessageEvent, instance: Handle, fuel: nat) returns (r: Outcome)
    requires Coherent(heap, dreg)
    modifies heap, tracker
    ensures Coherent(heap, dreg)
    ensures var d := DecodeItems(sreg, logContext, warpKey, EventItems(ev), instance,
                                 DState(old(heap.objects), old(tracker.resolution)), fuel);
      (r.Pass? <==> d.Ok?) && (r.Fail? ==> r.error == d.error) &&
      (r.Pass? ==> heap.objects == d.value.objects && tracker.resolution == d.value.pending)
    ensures heap.trace == old(heap.trace)
    ensures tracker.messages == old(tracker.messages) && tracker.updates == old(tracker.updates) && tracker.deletes == old(tracker.deletes)
  {
    ghost var objects0 := heap.objects;
    r := DeserializeItems(heap, tracker, sreg, logContext, warpKey, EventItems(ev), instance, fuel);
    AgreesKept(objects0, heap.objects, dreg.objectKeys);
  }
}
