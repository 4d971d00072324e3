/**
 * Bringing a tracker to rest: fetching a Data object from the platform
 * (the client's getDataAsync), resolving the queued references to a
 * fixpoint, and applying the four queues of a tracker in their fixed
 * order (resolution, message listeners, data-update listeners, deletions).
 */
module Sync {
  import opened Wrappers
  import opened Unsigned
  import opened Keys
  import opened JsHeap
  import opened Wire
  import opened Registry
  import opened Responses
  import opened Tracking
  import opened ModelTypes
  import opened Decoding
  import opened Merging
  import opened Requests
  import opened River

  /** A loaded snapshot is the object asked for when class id and primary key agree. */
  predicate Matches(s: DataSnapshot, key: DataKey)
  {
    s.classId == key.classKey.classId && s.primaryKey == key.primaryKey
  }

  /** `h` is a live Data object in `objects` carrying primary key `pk`. */
  predicate DataAt(objects: seq<Obj>, h: Handle, pk: string)
  {
    h < |objects| && objects[h].DataObj? && objects[h].primaryKey == pk
  }

  lemma KeepsDataAt(objects: seq<Obj>, objects2: seq<Obj>, h: Handle, pk: string)
    requires DataAt(objects, h, pk) && KeepsData(objects, objects2)
    ensures DataAt(objects2, h, pk)
  {
  }

  // ---------------------------------------------------------------------
  // getDataAsync.

  /**
   * Which snapshot getDataAsync's loop returns the object of: the last one
   * that matches the key and installed an object (`loaded[i]` is what
   * installing snapshot `i` gave), none when there is no such snapshot.
   */
  function LastInstalled(data: seq<Option<DataSnapshot>>, loaded: seq<Option<Handle>>, key: DataKey): (r: Option<nat>)
    requires |loaded| == |data| && forall i :: 0 <= i < |data| ==> data[i].Some?
    ensures r.Some? ==>
      r.value < |data| && Matches(data[r.value].value, key) && loaded[r.value].Some? &&
      forall j :: r.value < j < |data| && Matches(data[j].value, key) ==> loaded[j].None?
    ensures r.None? ==> forall j :: 0 <= j < |data| && Matches(data[j].value, key) ==> loaded[j].None?
    decreases |data|
  {
    if |data| == 0 then None
    else
      var n := |data| - 1;
      if Matches(data[n].value, key) && loaded[n].Some? then Some(n)
      else LastInstalled(data[..n], loaded[..n], key)
  }

  /** The object `LastInstalled` picks, or null. */
  function Target(data: seq<Option<DataSnapshot>>, loaded: seq<Option<Handle>>, key: DataKey): Option<Handle>
    requires |loaded| == |data| && forall i :: 0 <= i < |data| ==> data[i].Some?
  {
    match LastInstalled(data, loaded, key)
    case None => None
    case Some(i) => loaded[i]
  }

  /** What installing the snapshots gave: nothing only for a deletion, otherwise a live Data object with the snapshot's key. */
  predicate Installed(objects: seq<Obj>, data: seq<Option<DataSnapshot>>, loaded: seq<Option<Handle>>)
  {
    |loaded| == |data| && (forall i :: 0 <= i < |data| ==> data[i].Some?) &&
    (forall i :: 0 <= i < |data| && loaded[i].None? ==> data[i].value.deleted) &&
    (forall i :: 0 <= i < |data| && loaded[i].Some? ==> DataAt(objects, loaded[i].value, data[i].value.primaryKey))
  }

  /**
   * getDataAsync: the request goes to the key's warp over its cached or
   * newly opened connection; a reply that is not OK fails with its error.
   * Every snapshot in the reply is installed with replaceData into the
   * caller's tracker, and the result is the last installed object that
   * matches the key, or nothing when each matching snapshot was a
   * deletion.
   */
  method FetchData(heap: Heap, tracker: Tracker, dreg: DataRegistry, sreg: ServiceRegistry, wreg: WarpRegistry,
                   platform: Platform, logContext: string, key: DataKey, fuel: nat)
    returns (r: Result<Option<Handle>>, data: seq<Option<DataSnapshot>>, ghost loaded: seq<Option<Handle>>)
    requires Coherent(heap, dreg) && wreg.Valid() && platform.Valid()
    modifies heap, tracker, dreg, dreg.objects, wreg.riverClients, platform
    ensures Coherent(heap, dreg) && wreg.Valid() && platform.Valid()
    ensures old(platform.sent) <= platform.sent
    ensures KeepsData(old(heap.objects), heap.objects)
    ensures logContext == "" ==> r == Err(Falsy("logContext"))
    ensures |platform.replies| <= |old(platform.replies)|
    ensures r.Ok? ==> |platform.replies| < |old(platform.replies)|
    ensures r.Ok? ==>
      |platform.sent| == |old(platform.sent)| + 1 &&
      platform.sent[|old(platform.sent)|].1.body == GetDataRequest(key.classKey.classId, key.primaryKey) &&
      old(platform.replies)[0].response == Some(Some(OkResponse(GetDataBody(data)))) &&
      Installed(heap.objects, data, loaded) && r.value == Target(data, loaded, key)
    ensures r.Ok? && r.value.Some? ==> DataAt(heap.objects, r.value.value, key.primaryKey)
    ensures r.Ok? && r.value.None? ==>
      forall i :: 0 <= i < |data| && Matches(data[i].value, key) ==> data[i].value.deleted
    ensures r.Ok? ==> old(tracker.updates) <= tracker.updates && old(tracker.deletes) <= tracker.deletes
    ensures dreg.updatedListeners == old(dreg.updatedListeners)
    ensures heap.trace == old(heap.trace) && tracker.messages == old(tracker.messages)
  {
    data := [];
    loaded := [];
    if logContext == "" {
      return Err(Falsy("logContext")), data, loaded;
    }
    var answer := AskForData(wreg, platform, logContext, key);
    if answer.Err? {
      return Err(answer.error), data, loaded;
    }
    data := answer.value;
    r, loaded := LoadAll(heap, tracker, dreg, sreg, logContext, key, data, fuel);
  }

  /**
   * The exchange of getDataAsync: the key's warp client, a getData request
   * for the key, and the snapshots of an OK reply; a reply that is not OK
   * fails with its error.
   */
  method AskForData(wreg: WarpRegistry, platform: Platform, logContext: string, key: DataKey)
    returns (r: Result<seq<Option<DataSnapshot>>>)
    requires wreg.Valid() && platform.Valid()
    modifies wreg.riverClients, platform
    ensures wreg.Valid() && platform.Valid()
    ensures old(platform.sent) <= platform.sent
    ensures |platform.replies| <= |old(platform.replies)|
    ensures r.Ok? ==>
      |platform.replies| < |old(platform.replies)| &&
      |platform.sent| == |old(platform.sent)| + 1 &&
      platform.sent[|old(platform.sent)|].1.body == GetDataRequest(key.classKey.classId, key.primaryKey) &&
      old(platform.replies)[0].response == Some(Some(OkResponse(GetDataBody(r.value)))) &&
      SnapshotsWellFormed(r.value)
  {
    var client := GetRiverClient(wreg, platform, key.classKey.warpKey);
    if client.Err? {
      return Err(client.error);
    }
    r := RequestData(platform, client.value, logContext, key);
  }

  /** riverClient.getDataAsync and the check that its reply is OK. */
  method RequestData(platform: Platform, client: RiverClient, logContext: string, key: DataKey)
    returns (r: Result<seq<Option<DataSnapshot>>>)
    requires platform.Valid()
    modifies platform
    ensures platform.Valid()
    ensures old(platform.sent) <= platform.sent
    ensures |platform.replies| <= |old(platform.replies)|
    ensures r.Ok? ==>
      |platform.replies| < |old(platform.replies)| &&
      |platform.sent| == |old(platform.sent)| + 1 && platform.sent[..|old(platform.sent)|] == old(platform.sent) &&
      platform.sent[|old(platform.sent)|].0 == client.connection &&
      platform.sent[|old(platform.sent)|].1.body == GetDataRequest(key.classKey.classId, key.primaryKey) &&
      old(platform.replies)[0].response == Some(Some(OkResponse(GetDataBody(r.value)))) &&
      SnapshotsWellFormed(r.value)
  {
    var request := CreateGetDataRequest(logContext, key);
    if request.Err? {
      return Err(request.error);
    }
    var response := Exchange(platform, client, request.value);
    if response.Err? {
      return Err(response.error);
    }
    if response.value.response.None? {
      return Err(GetErrorForNotOkResponse(response.value));
    }
    r := Ok(response.value.response.value.data);
  }

  /**
   * replaceData as getDataAsync's loop relies on it: an installed object
   * is a live Data object with the snapshot's primary key, and only a
   * deleted snapshot installs nothing.
   */
  method LoadSnapshot(heap: Heap, tracker: Tracker, dreg: DataRegistry, sreg: ServiceRegistry,
                      logContext: string, warpKey: WarpKey, snapshot: DataSnapshot, fuel: nat) returns (r: Result<Option<Handle>>)
    requires Coherent(heap, dreg) && ValidLong(snapshot.version)
    modifies heap, tracker, dreg, dreg.objects
    ensures Coherent(heap, dreg)
    ensures KeepsData(old(heap.objects), heap.objects)
    ensures r.Ok? && r.value.Some? ==> DataAt(heap.objects, r.value.value, snapshot.primaryKey)
    ensures r.Ok? && r.value.None? ==> snapshot.deleted
    ensures r.Ok? ==> old(tracker.updates) <= tracker.updates && old(tracker.deletes) <= tracker.deletes
    ensures dreg.updatedListeners == old(dreg.updatedListeners)
    ensures heap.trace == old(heap.trace) && tracker.messages == old(tracker.messages)
  {
    r := ReplaceData(heap, tracker, dreg, sreg, logContext, warpKey, snapshot, fuel);
  }

  /** The loop of getDataAsync over the snapshots of an OK reply. */
  method LoadAll(heap: Heap, tracker: Tracker, dreg: DataRegistry, sreg: ServiceRegistry,
                 logContext: string, key: DataKey, data: seq<Option<DataSnapshot>>, fuel: nat)
    returns (r: Result<Option<Handle>>, ghost loaded: seq<Option<Handle>>)
    requires Coherent(heap, dreg) && SnapshotsWellFormed(data)
    modifies heap, tracker, dreg, dreg.objects
    ensures Coherent(heap, dreg)
    ensures KeepsData(old(heap.objects), heap.objects)
    ensures r.Ok? ==> Installed(heap.objects, data, loaded) && r.value == Target(data, loaded, key)
    ensures r.Ok? && r.value.Some? ==> DataAt(heap.objects, r.value.value, key.primaryKey)
    ensures r.Ok? && r.value.None? ==>
      forall i :: 0 <= i < |data| && Matches(data[i].value, key) ==> data[i].value.deleted
    ensures r.Ok? ==> old(tracker.updates) <= tracker.updates && old(tracker.deletes) <= tracker.deletes
    ensures dreg.updatedListeners == old(dreg.updatedListeners)
    ensures heap.trace == old(heap.trace) && tracker.messages == old(tracker.messages)
  {
    var target: Option<Handle> := None;
    loaded := [];
    var i := 0;
    while i < |data|
      invariant 0 <= i <= |data| && |loaded| == i
      invariant Coherent(heap, dreg)
      invariant KeepsData(old(heap.objects), heap.objects)
      invariant Installed(heap.objects, data[..i], loaded) && target == Target(data[..i], loaded, key)
      invariant old(tracker.updates) <= tracker.updates && old(tracker.deletes) <= tracker.deletes
      invariant dreg.updatedListeners == old(dreg.updatedListeners)
      invariant heap.trace == old(heap.trace) && tracker.messages == old(tracker.messages)
    {
      if data[i].None? {
        return Err(InvalidData), loaded;
      }
      var snapshot := data[i].value;
      ghost var before := heap.objects;
      var installed := LoadSnapshot(heap, tracker, dreg, sreg, logContext, key.classKey.warpKey, snapshot, fuel);
      if installed.Err? {
        return Err(installed.error), loaded;
      }
      KeepsDataTrans(old(heap.objects), before, heap.objects);
      InstalledNext(before, heap.objects, data, loaded, key, i, installed.value);
      if installed.value.Some? && Matches(snapshot, key) {
        target := installed.value;
      }
      loaded := loaded + [installed.value];
      i := i + 1;
    }
    assert data[..i] == data;
    r := Ok(target);
  }

  /** One more snapshot installed: the record grows by its result, and the target moves to it when it matches. */
  lemma InstalledNext(objects: seq<Obj>, objects2: seq<Obj>, data: seq<Option<DataSnapshot>>, loaded: seq<Option<Handle>>,
                      key: DataKey, i: nat, h: Option<Handle>)
    requires i < |data| && data[i].Some? && Installed(objects, data[..i], loaded) && KeepsData(objects, objects2)
    requires h.None? ==> data[i].value.deleted
    requires h.Some? ==> DataAt(objects2, h.value, data[i].value.primaryKey)
    ensures Installed(objects2, data[..i + 1], loaded + [h])
    ensures Target(data[..i + 1], loaded + [h], key) ==
      if h.Some? && Matches(data[i].value, key) then h else Target(data[..i], loaded, key)
  {
    var d, l := data[..i + 1], loaded + [h];
    assert d[..i] == data[..i] && l[..i] == loaded;
    forall j | 0 <= j < i && loaded[j].Some?
      ensures DataAt(objects2, loaded[j].value, data[j].value.primaryKey)
    {
      assert data[..i][j] == data[j];
      KeepsDataAt(objects, objects2, loaded[j].value, data[j].value.primaryKey);
    }
  }

  // ---------------------------------------------------------------------
  // DataResolutionQueue.applyOnceAsync.

  /** The keys an item resolves, in order. */
  function KeysOf(item: ResolutionItem): (keys: seq<DataKey>)
    ensures item.Single? ==> keys == [item.key]
    ensures item.Multi? ==> keys == item.keys
  {
    match item
    case Single(key, _) => [key]
    case Multi(keys, _) => keys
  }

  /** What a callback receives for one key: a live Data object with that key, or null. */
  predicate Delivered(objects: seq<Obj>, v: Native, key: DataKey)
  {
    v == Null || (v.Ref? && DataAt(objects, v.h, key.primaryKey))
  }

  /**
   * What was delivered for the first keys stays delivered when the objects
   * keep their keys, and one more delivered value extends it.
   */
  lemma DeliveredKept(objects: seq<Obj>, objects2: seq<Obj>, values: seq<Native>, keys: seq<DataKey>, v: Native)
    requires KeepsData(objects, objects2) && |values| < |keys|
    requires forall j :: 0 <= j < |values| ==> Delivered(objects, values[j], keys[j])
    requires Delivered(objects2, v, keys[|values|])
    ensures forall j :: 0 <= j <= |values| ==> Delivered(objects2, (values + [v])[j], keys[j])
  {
  }

  lemma InvokedKeepsData(objects: seq<Obj>, cb: Callback, values: seq<Native>)
    ensures KeepsData(objects, Invoked(objects, cb, values))
  {
  }

  /**
   * One key of an item: the live registry instance when there is one, and
   * otherwise a fetch into the same tracker.
   */
  method Retrieve(heap: Heap, tracker: Tracker, dreg: DataRegistry, sreg: ServiceRegistry, wreg: WarpRegistry,
                  platform: Platform, logContext: string, key: DataKey, fuel: nat) returns (r: Result<Native>, fetched: bool)
    requires Coherent(heap, dreg) && wreg.Valid() && platform.Valid()
    modifies heap, tracker, dreg, dreg.objects, wreg.riverClients, platform
    ensures Coherent(heap, dreg) && wreg.Valid() && platform.Valid()
    ensures old(platform.sent) <= platform.sent
    ensures KeepsData(old(heap.objects), heap.objects)
    ensures fetched <==> old(dreg.TryGetInstance(key)).None?
    ensures !fetched ==>
      r == Ok(Ref(old(dreg.TryGetInstance(key)).value)) && unchanged(heap, tracker, dreg, dreg.objects, platform)
    ensures r.Ok? ==> Delivered(heap.objects, r.value, key)
    ensures |platform.replies| <= |old(platform.replies)|
    ensures r.Ok? && fetched ==> |platform.replies| < |old(platform.replies)|
    ensures r.Ok? ==> old(tracker.updates) <= tracker.updates && old(tracker.deletes) <= tracker.deletes
    ensures dreg.updatedListeners == old(dreg.updatedListeners)
    ensures heap.trace == old(heap.trace) && tracker.messages == old(tracker.messages)
  {
    var live := dreg.TryGetInstance(key);
    if live.Some? {
      assert dreg.GetDataKey(live.value) == Ok(key);
      return Ok(Ref(live.value)), false;
    }
    fetched := true;
    var loaded, _, _ := FetchData(heap, tracker, dreg, sreg, wreg, platform, logContext, key, fuel);
    if loaded.Err? {
      return Err(loaded.error), fetched;
    }
    r := Ok(Resolved(loaded.value));
  }

  /** Key `i` retrieved, keeping what was delivered for the earlier keys valid. */
  method RetrieveNext(heap: Heap, tracker: Tracker, dreg: DataRegistry, sreg: ServiceRegistry, wreg: WarpRegistry,
                      platform: Platform, logContext: string, keys: seq<DataKey>, i: nat, values: seq<Native>, fuel: nat)
    returns (r: Result<seq<Native>>, fetched: bool)
    requires Coherent(heap, dreg) && wreg.Valid() && platform.Valid()
    requires i < |keys| && |values| == i && forall j :: 0 <= j < i ==> Delivered(heap.objects, values[j], keys[j])
    modifies heap, tracker, dreg, dreg.objects, wreg.riverClients, platform
    ensures Coherent(heap, dreg) && wreg.Valid() && platform.Valid()
    ensures old(platform.sent) <= platform.sent
    ensures KeepsData(old(heap.objects), heap.objects)
    ensures r.Ok? ==>
      |r.value| == i + 1 && r.value[..i] == values &&
      forall j :: 0 <= j <= i ==> Delivered(heap.objects, r.value[j], keys[j])
    ensures !fetched ==> r.Ok? && unchanged(heap, tracker, dreg, dreg.objects, platform)
    ensures |platform.replies| <= |old(platform.replies)|
    ensures r.Ok? && fetched ==> |platform.replies| < |old(platform.replies)|
    ensures r.Ok? ==> old(tracker.updates) <= tracker.updates && old(tracker.deletes) <= tracker.deletes
    ensures dreg.updatedListeners == old(dreg.updatedListeners)
    ensures heap.trace == old(heap.trace) && tracker.messages == old(tracker.messages)
  {
    ghost var objectsBefore := heap.objects;
    var v;
    v, fetched := Retrieve(heap, tracker, dreg, sreg, wreg, platform, logContext, keys[i], fuel);
    if v.Err? {
      return Err(v.error), fetched;
    }
    DeliveredKept(objectsBefore, heap.objects, values, keys, v.value);
    r := Ok(values + [v.value]);
  }

  /**
   * The keys of one item retrieved in order. When every key is live
   * nothing is fetched and nothing changes.
   */
  method RetrieveAll(heap: Heap, tracker: Tracker, dreg: DataRegistry, sreg: ServiceRegistry, wreg: WarpRegistry,
                     platform: Platform, logContext: string, keys: seq<DataKey>, fuel: nat)
    returns (r: Result<seq<Native>>, fetched: bool)
    requires Coherent(heap, dreg) && wreg.Valid() && platform.Valid()
    modifies heap, tracker, dreg, dreg.objects, wreg.riverClients, platform
    ensures Coherent(heap, dreg) && wreg.Valid() && platform.Valid()
    ensures old(platform.sent) <= platform.sent
    ensures KeepsData(old(heap.objects), heap.objects)
    ensures r.Ok? ==>
      |r.value| == |keys| && forall j :: 0 <= j < |keys| ==> Delivered(heap.objects, r.value[j], keys[j])
    ensures !fetched ==> unchanged(heap, tracker, dreg, dreg.objects, platform)
    ensures |platform.replies| <= |old(platform.replies)|
    ensures r.Ok? && fetched ==> |platform.replies| < |old(platform.replies)|
    ensures r.Ok? ==> old(tracker.updates) <= tracker.updates && old(tracker.deletes) <= tracker.deletes
    ensures dreg.updatedListeners == old(dreg.updatedListeners)
    ensures heap.trace == old(heap.trace) && tracker.messages == old(tracker.messages)
  {
    var values := [];
    fetched := false;
    var i := 0;
    while i < |keys|
      invariant 0 <= i <= |keys| && |values| == i
      invariant Coherent(heap, dreg) && wreg.Valid() && platform.Valid()
      invariant old(platform.sent) <= platform.sent
      invariant KeepsData(old(heap.objects), heap.objects)
      invariant forall j :: 0 <= j < i ==> Delivered(heap.objects, values[j], keys[j])
      invariant !fetched ==>
        unchanged(heap, tracker, dreg, dreg.objects, platform)
      invariant |platform.replies| <= |old(platform.replies)|
      invariant fetched ==> |platform.replies| < |old(platform.replies)|
      invariant old(tracker.updates) <= tracker.updates && old(tracker.deletes) <= tracker.deletes
      invariant dreg.updatedListeners == old(dreg.updatedListeners)
      invariant heap.trace == old(heap.trace) && tracker.messages == old(tracker.messages)
    {
      ghost var objectsBefore := heap.objects;
      var next, f := RetrieveNext(heap, tracker, dreg, sreg, wreg, platform, logContext, keys, i, values, fuel);
      KeepsDataTrans(old(heap.objects), objectsBefore, heap.objects);
      if next.Err? {
        return Err(next.error), fetched || f;
      }
      values := next.value;
      fetched := fetched || f;
      i := i + 1;
    }
    r := Ok(values);
  }

  /**
   * One queued item: its keys are retrieved, and then its callback runs
   * once with what was retrieved; a null callback changes nothing. The
   * callback only ever receives live Data objects with the keys asked for,
   * or null.
   */
  method ServeItem(heap: Heap, tracker: Tracker, dreg: DataRegistry, sreg: ServiceRegistry, wreg: WarpRegistry,
                   platform: Platform, logContext: string, item: ResolutionItem, fuel: nat)
    returns (r: Outcome, fetched: bool, values: seq<Native>, ghost before: seq<Obj>)
    requires Coherent(heap, dreg) && wreg.Valid() && platform.Valid()
    modifies heap, tracker, dreg, dreg.objects, wreg.riverClients, platform
    ensures Coherent(heap, dreg) && wreg.Valid() && platform.Valid()
    ensures old(platform.sent) <= platform.sent
    ensures KeepsData(old(heap.objects), heap.objects)
    ensures r.Pass? ==>
      |values| == |KeysOf(item)| && KeepsData(old(heap.objects), before) &&
      heap.objects == Invoked(before, item.callback, values) &&
      forall j :: 0 <= j < |values| ==> Delivered(heap.objects, values[j], KeysOf(item)[j])
    ensures !fetched ==>
      before == old(heap.objects) && unchanged(tracker, dreg, dreg.objects, platform)
    ensures |platform.replies| <= |old(platform.replies)|
    ensures r.Pass? && fetched ==> |platform.replies| < |old(platform.replies)|
    ensures r.Pass? ==> old(tracker.updates) <= tracker.updates && old(tracker.deletes) <= tracker.deletes
    ensures dreg.updatedListeners == old(dreg.updatedListeners)
    ensures heap.trace == old(heap.trace) && tracker.messages == old(tracker.messages)
  {
    var keys := KeysOf(item);
    var retrieved;
    retrieved, fetched := RetrieveAll(heap, tracker, dreg, sreg, wreg, platform, logContext, keys, fuel);
    before := heap.objects;
    if retrieved.Err? {
      return Fail(retrieved.error), fetched, [], before;
    }
    values := retrieved.value;
    heap.objects := Invoked(heap.objects, item.callback, values);
    InvokedKeepsData(before, item.callback, values);
    KeepsDataTrans(old(heap.objects), before, heap.objects);
    forall j | 0 <= j < |values| ensures Delivered(heap.objects, values[j], keys[j]) {
      if values[j].Ref? {
        KeepsDataAt(before, heap.objects, values[j].h, keys[j].primaryKey);
      }
    }
    r := Pass;
  }

  /** One round: the snapshot of the queue taken at its start, served item by item. */
  method ServeRound(heap: Heap, tracker: Tracker, dreg: DataRegistry, sreg: ServiceRegistry, wreg: WarpRegistry,
                    platform: Platform, logContext: string, round: seq<ResolutionItem>, fuel: nat)
    returns (r: Outcome, fetched: bool)
    requires Coherent(heap, dreg) && wreg.Valid() && platform.Valid()
    modifies heap, tracker, dreg, dreg.objects, wreg.riverClients, platform
    ensures Coherent(heap, dreg) && wreg.Valid() && platform.Valid()
    ensures old(platform.sent) <= platform.sent
    ensures KeepsData(old(heap.objects), heap.objects)
    ensures !fetched ==>
      tracker.resolution == old(tracker.resolution) && tracker.updates == old(tracker.updates) &&
      tracker.deletes == old(tracker.deletes) && platform.replies == old(platform.replies)
    ensures |platform.replies| <= |old(platform.replies)|
    ensures r.Pass? && fetched ==> |platform.replies| < |old(platform.replies)|
    ensures r.Pass? ==> old(tracker.updates) <= tracker.updates && old(tracker.deletes) <= tracker.deletes
    ensures dreg.updatedListeners == old(dreg.updatedListeners)
    ensures heap.trace == old(heap.trace) && tracker.messages == old(tracker.messages)
  {
    fetched := false;
    var i := 0;
    while i < |round|
      invariant 0 <= i <= |round|
      invariant Coherent(heap, dreg) && wreg.Valid() && platform.Valid()
      invariant old(platform.sent) <= platform.sent
      invariant KeepsData(old(heap.objects), heap.objects)
      invariant !fetched ==>
        tracker.resolution == old(tracker.resolution) && tracker.updates == old(tracker.updates) &&
        tracker.deletes == old(tracker.deletes) && platform.replies == old(platform.replies)
      invariant |platform.replies| <= |old(platform.replies)|
      invariant fetched ==> |platform.replies| < |old(platform.replies)|
      invariant old(tracker.updates) <= tracker.updates && old(tracker.deletes) <= tracker.deletes
      invariant dreg.updatedListeners == old(dreg.updatedListeners)
      invariant heap.trace == old(heap.trace) && tracker.messages == old(tracker.messages)
    {
      ghost var objectsBefore := heap.objects;
      var served, f, _, _ := ServeItem(heap, tracker, dreg, sreg, wreg, platform, logContext, round[i], fuel);
      KeepsDataTrans(old(heap.objects), objectsBefore, heap.objects);
      fetched := fetched || f;
      if served.Fail? {
        return served, fetched;
      }
      i := i + 1;
    }
    r := Pass;
  }

  /**
   * DataResolutionQueue.applyOnceAsync: the queue is taken and cleared,
   * its items served, and this repeats while serving them queued more.
   * Only a fetch queues more, and every fetch consumes a reply of the
   * platform, so the loop ends. Every item queued at the start is served,
   * in order, before the queue comes to rest empty.
   */
  method Resolve(heap: Heap, tracker: Tracker, dreg: DataRegistry, sreg: ServiceRegistry, wreg: WarpRegistry,
                 platform: Platform, logContext: string, fuel: nat) returns (r: Outcome, ghost served: seq<ResolutionItem>)
    requires Coherent(heap, dreg) && wreg.Valid() && platform.Valid()
    modifies heap, tracker, dreg, dreg.objects, wreg.riverClients, platform
    ensures Coherent(heap, dreg) && wreg.Valid() && platform.Valid()
    ensures old(platform.sent) <= platform.sent
    ensures KeepsData(old(heap.objects), heap.objects)
    ensures logContext == "" ==> r == Fail(Falsy("logContext")) && tracker.resolution == old(tracker.resolution)
    ensures r.Pass? ==> tracker.resolution == [] && old(tracker.resolution) <= served
    ensures r.Pass? ==> old(tracker.updates) <= tracker.updates && old(tracker.deletes) <= tracker.deletes
    ensures dreg.updatedListeners == old(dreg.updatedListeners)
    ensures heap.trace == old(heap.trace) && tracker.messages == old(tracker.messages)
  {
    served := [];
    if logContext == "" {
      return Fail(Falsy("logContext")), served;
    }
    while |tracker.resolution| > 0
      invariant Coherent(heap, dreg) && wreg.Valid() && platform.Valid()
      invariant old(platform.sent) <= platform.sent
      invariant KeepsData(old(heap.objects), heap.objects)
      invariant old(tracker.resolution) <= served + tracker.resolution
      invariant old(tracker.updates) <= tracker.updates && old(tracker.deletes) <= tracker.deletes
      invariant dreg.updatedListeners == old(dreg.updatedListeners)
      invariant heap.trace == old(heap.trace) && tracker.messages == old(tracker.messages)
      decreases |platform.replies|, |tracker.resolution|
    {
      ghost var objectsBefore := heap.objects;
      var round := tracker.TakeResolutions();
      var done, fetched := ServeRound(heap, tracker, dreg, sreg, wreg, platform, logContext, round, fuel);
      KeepsDataTrans(old(heap.objects), objectsBefore, heap.objects);
      served := served + round;
      if done.Fail? {
        return done, served;
      }
    }
    r := Pass;
  }

  // ---------------------------------------------------------------------
  // Tracker.applyOnceAsync.

  /**
   * Tracker.applyOnceAsync: references are resolved first, then every
   * queued message reaches its listeners, then every queued update
   * (including those the resolution's fetches added), and the deletions
   * come last, so update listeners still see the deleted objects
   * registered. On success all four queues are empty.
   */
  method ApplyOnce(heap: Heap, tracker: Tracker, dreg: DataRegistry, sreg: ServiceRegistry, mreg: MessageRegistry,
                   wreg: WarpRegistry, platform: Platform, logContext: string, fuel: nat)
    returns (r: Outcome, ghost notified: seq<DataUpdatedEvent>, ghost removed: seq<DataKey>)
    requires Coherent(heap, dreg) && wreg.Valid() && platform.Valid()
    modifies heap, tracker, dreg, dreg.objects, wreg.riverClients, platform
    ensures Coherent(heap, dreg) && wreg.Valid() && platform.Valid()
    ensures old(platform.sent) <= platform.sent
    ensures KeepsData(old(heap.objects), heap.objects)
    ensures logContext == "" ==> r == Fail(Falsy("logContext")) && heap.trace == old(heap.trace)
    ensures r.Pass? ==> tracker.resolution == [] && tracker.messages == [] && tracker.updates == [] && tracker.deletes == []
    ensures r.Pass? ==>
      old(tracker.updates) <= notified &&
      heap.trace == old(heap.trace) + MessageTrace(old(tracker.messages), mreg.listeners.entries) +
                    UpdateTrace(notified, old(dreg.updatedListeners))
    ensures r.Pass? ==> old(tracker.deletes) <= removed && forall k :: k in removed ==> dreg.TryGetInstance(k) == None
    ensures unchanged(sreg, sreg.classes)
  {
    notified := [];
    removed := [];
    var resolved, _ := Resolve(heap, tracker, dreg, sreg, wreg, platform, logContext, fuel);
    if resolved.Fail? {
      return resolved, notified, removed;
    }
    r, notified, removed := Flush(heap, tracker, dreg, mreg);
  }

  /**
   * The end of applyOnceAsync: the queued messages are fired, then the
   * updates; only when every update found its object are the deletions
   * applied.
   */
  method Flush(heap: Heap, tracker: Tracker, dreg: DataRegistry, mreg: MessageRegistry)
    returns (r: Outcome, ghost notified: seq<DataUpdatedEvent>, ghost removed: seq<DataKey>)
    requires Coherent(heap, dreg)
    modifies heap, tracker, dreg, dreg.objects
    ensures Coherent(heap, dreg)
    ensures heap.objects == old(heap.objects) && tracker.resolution == old(tracker.resolution)
    ensures notified == old(tracker.updates) && removed == old(tracker.deletes)
    ensures r.Pass? ==> tracker.messages == [] && tracker.updates == [] && tracker.deletes == []
    ensures r.Pass? ==>
      heap.trace == old(heap.trace) + MessageTrace(old(tracker.messages), mreg.listeners.entries) +
                    UpdateTrace(notified, old(dreg.updatedListeners))
    ensures r.Pass? ==> forall k :: k in removed ==> dreg.TryGetInstance(k) == None
  {
    notified := tracker.updates;
    removed := tracker.deletes;
    tracker.FireMessages(heap, mreg);
    r := tracker.FireUpdates(heap, dreg);
    if r.Fail? {
      return r, notified, removed;
    }
    assert notified[..|notified|] == notified;
    tracker.ApplyDeletes(dreg);
  }
}
