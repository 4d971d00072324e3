/**
 * Applying what the platform sends about Data objects: mergeDelta, the
 * per-object version state machine for incremental changes, and
 * replaceData, which installs a full snapshot. Both only enqueue their
 * notifications, deletions and reference resolutions on a tracker; nothing
 * is fired here.
 */
module Merging {
  import opened Wrappers
  import opened Unsigned
  import opened Keys
  import opened JsHeap
  import opened Wire
  import opened Registry
  import opened Tracking
  import opened ModelTypes
  import opened Decoding

  // ---------------------------------------------------------------------
  // The version state machine.

  /** What a delta does to the object it names. */
  datatype MergeAction = Delete | Create | Advance | Reject

  /**
   * The four outcomes of mergeDelta, from the delta's deleted flag, the
   * version the registry knows for the object (none when there is no live
   * instance or it was never given one) and the delta's version.
   */
  function Decide(deleted: bool, known: Option<Unsigned>, version: Unsigned): (a: MergeAction)
    ensures a == Delete <==> deleted
    ensures a == Create <==> !deleted && known.None? && version.value == 1
    ensures a == Advance <==> !deleted && known.Some? && version.value == known.value.value + 1
  {
    if deleted then Delete
    else if known.None? && version.value == 1 then Create
    else if known.Some? && version.value == known.value.value + 1 then Advance
    else Reject
  }

  /** The version an accepted delta must carry: 1 for an unknown object, one more than the known version otherwise. */
  function Next(known: Option<Unsigned>): (v: nat)
    ensures v >= 1
  {
    if known.None? then 1 else known.value.value + 1
  }

  /** A change is accepted exactly when it carries the next version, and the object then holds that version. */
  lemma AcceptedIffNext(known: Option<Unsigned>, version: Unsigned)
    ensures Decide(false, known, version) != Reject <==> version.value == Next(known)
    ensures Decide(false, known, version) == Reject <==> version.value != Next(known)
  {
  }

  /** A change applied a second time is rejected: the object already holds its version. */
  lemma ReplayRejected(known: Option<Unsigned>, version: Unsigned)
    requires Decide(false, known, version) != Reject
    ensures Decide(false, Some(version), version) == Reject
  {
  }

  /**
   * The versions an object goes through under a run of changes, none of
   * them deleting: `None` as soon as one is rejected.
   */
  function Track(known: Option<Unsigned>, versions: seq<Unsigned>): (r: Option<Option<Unsigned>>)
    ensures r.Some? && |versions| > 0 ==> r.value == Some(versions[|versions| - 1])
    ensures |versions| == 0 ==> r == Some(known)
  {
    if |versions| == 0 then Some(known)
    else
      match Track(known, versions[..|versions| - 1])
      case None => None
      case Some(k) =>
        if Decide(false, k, versions[|versions| - 1]) == Reject then None
        else Some(Some(versions[|versions| - 1]))
  }

  /** Each version is one more than the one before it, the first being Next(known). */
  predicate Consecutive(known: Option<Unsigned>, versions: seq<Unsigned>)
  {
    forall i :: 0 <= i < |versions| ==> versions[i].value == Next(known) + i
  }

  /**
   * A run of changes is accepted in full exactly when its versions count up
   * by one from the next version: any gap, repeat or reordering leads to a
   * rejection (and a refetch).
   */
  lemma {:induction false} TrackAcceptsExactlyConsecutive(known: Option<Unsigned>, versions: seq<Unsigned>)
    ensures Track(known, versions).Some? <==> Consecutive(known, versions)
    decreases |versions|
  {
    if |versions| > 0 {
      var n := |versions| - 1;
      var init := versions[..n];
      TrackAcceptsExactlyConsecutive(known, init);
      assert Consecutive(known, versions) ==> Consecutive(known, init) by {
        if Consecutive(known, versions) {
          forall i | 0 <= i < n ensures init[i].value == Next(known) + i {
            assert init[i] == versions[i];
          }
        }
      }
      if Track(known, init).Some? {
        var k := Track(known, init).value;
        assert k == (if n == 0 then known else Some(init[n - 1]));
        assert Consecutive(known, init);
        assert n > 0 ==> Next(k) == Next(known) + n by {
          if n > 0 { assert init[n - 1].value == Next(known) + n - 1; }
        }
        if Consecutive(known, versions) {
          assert versions[n].value == Next(known) + n;
        } else {
          assert forall i :: 0 <= i < n ==> versions[i] == init[i];
          assert versions[n].value != Next(known) + n;
        }
      } else {
        assert !Consecutive(known, init);
      }
    }
  }

  // ---------------------------------------------------------------------
  // Reading a delta.

  /**
   * createDataKeyFromDelta: the primary key must be non-empty and the class
   * id non-zero; the key is in the warp the delta arrived for.
   */
  function DeltaKey(warpKey: WarpKey, classId: int, primaryKey: string): (r: Result<DataKey>)
    ensures r.Ok? <==> primaryKey != "" && classId != 0
    ensures primaryKey == "" ==> r == Err(EmptyPrimaryKey)
    ensures primaryKey != "" && classId == 0 ==> r == Err(Falsy("classId"))
    ensures r.Ok? ==> r.value == DataKey(ClassKey(warpKey, classId), primaryKey)
  {
    if primaryKey == "" then Err(EmptyPrimaryKey)
    else
      match NewClassKey(warpKey, classId)
      case Err(e) => Err(e)
      case Ok(classKey) => Ok(DataKey(classKey, primaryKey))
  }

  /** The version the registry knows for the live instance under a key, if any. */
  function Known(dreg: DataRegistry, key: DataKey): (r: Option<Unsigned>)
    reads dreg, dreg.classes, dreg.objects
    ensures r.Some? ==> dreg.TryGetInstance(key).Some? && dreg.TryGetInstance(key).value in dreg.versions
    ensures r.Some? ==> r.value == dreg.versions[dreg.TryGetInstance(key).value]
  {
    match dreg.TryGetInstance(key)
    case None => None
    case Some(h) => dreg.TryGetVersion(h)
  }

  /** The properties of a delta or snapshot as container items. */
  function PropertyItems(props: seq<Property>): (items: seq<Item>)
    ensures |items| == |props|
    ensures forall i :: 0 <= i < |props| ==> items[i] == PropertyItem(props[i])
  {
    seq(|props|, i requires 0 <= i < |props| => PropertyItem(props[i]))
  }

  /** The object after deleting the named properties of `h`, one after the other. */
  function DeletedAll(objects: seq<Obj>, h: Handle, names: seq<string>): (r: seq<Obj>)
    ensures |r| == |objects|
    ensures forall i :: 0 <= i < |objects| && i != h ==> r[i] == objects[i]
    ensures h < |objects| && objects[h].DataObj? ==>
      r[h].DataObj? && r[h].ctor == objects[h].ctor && r[h].primaryKey == objects[h].primaryKey
    decreases |names|
  {
    if |names| == 0 then objects
    else PropDeleted(DeletedAll(objects, h, names[..|names| - 1]), h, names[|names| - 1])
  }

  /**
   * mergeDeltaProperties: the properties are read into the object in order
   * (a reference through a resolution), then the deleted names are removed.
   */
  function MergedProps(sreg: ServiceRegistry, logContext: string, warpKey: WarpKey, props: seq<Property>,
                       deleted: seq<string>, h: Handle, st: DState, fuel: nat): (r: Result<DState>)
    reads sreg, sreg.classes
    ensures logContext == "" ==> r == Err(Falsy("logContext"))
    ensures r.Ok? ==> KeepsData(st.objects, r.value.objects) && st.pending <= r.value.pending
  {
    if logContext == "" then Err(Falsy("logContext"))
    else
      match DecodeItems(sreg, logContext, warpKey, PropertyItems(props), h, st, fuel)
      case Err(e) => Err(e)
      case Ok(st1) => Ok(DState(DeletedAll(st1.objects, h, deleted), st1.pending))
  }

  /** After a merge, no deleted name is left on the object, whatever the properties said. */
  lemma {:induction false} DeletedNamesGone(objects: seq<Obj>, h: Handle, names: seq<string>, i: nat)
    requires h < |objects| && objects[h].DataObj? && i < |names|
    ensures Lookup(DeletedAll(objects, h, names)[h].props, names[i]) == None
    decreases |names|
  {
    var n := |names| - 1;
    if i < n {
      DeletedNamesGone(objects, h, names[..n], i);
      assert names[..n][i] == names[i];
      var before := DeletedAll(objects, h, names[..n]);
      if names[n] != names[i] {
        assert Lookup(RemoveProp(before[h].props, names[n]), names[i]) == Lookup(before[h].props, names[i]);
      }
    }
  }

  /** The state change of mergeDeltaProperties. */
  method MergeProperties(heap: Heap, tracker: Tracker, sreg: ServiceRegistry, logContext: string, warpKey: WarpKey,
                         target: Handle, props: seq<Property>, deleted: seq<string>, fuel: nat) returns (r: Outcome)
    modifies heap, tracker
    ensures var m := MergedProps(sreg, logContext, warpKey, props, deleted, target, DState(old(heap.objects), old(tracker.resolution)), fuel);
      (r.Pass? <==> m.Ok?) && (r.Fail? ==> r.error == m.error) &&
      (r.Pass? ==> heap.objects == m.value.objects && tracker.resolution == m.value.pending)
    ensures KeepsData(old(heap.objects), heap.objects)
    ensures heap.trace == old(heap.trace)
    ensures tracker.messages == old(tracker.messages) && tracker.updates == old(tracker.updates) && tracker.deletes == old(tracker.deletes)
  {
    if logContext == "" {
      return Fail(Falsy("logContext"));
    }
    r := DeserializeItems(heap, tracker, sreg, logContext, warpKey, PropertyItems(props), target, fuel);
    if r.Fail? {
      return;
    }
    ghost var objects1 := heap.objects;
    ghost var pending1 := tracker.resolution;
    for i := 0 to |deleted|
      invariant heap.objects == DeletedAll(objects1, target, deleted[..i])
      invariant KeepsData(old(heap.objects), heap.objects)
      invariant heap.trace == old(heap.trace)
      invariant tracker.resolution == pending1 && tracker.messages == old(tracker.messages)
      invariant tracker.updates == old(tracker.updates) && tracker.deletes == old(tracker.deletes)
    {
      assert deleted[..i + 1][..i] == deleted[..i];
      heap.DeleteProp(target, deleted[i]);
    }
    assert deleted[..|deleted|] == deleted;
  }

  // ---------------------------------------------------------------------
  // mergeDelta.

  /** A delta passes the checks made before the registry is consulted. */
  predicate Readable(logContext: string, warpKey: WarpKey, delta: DataDelta)
  {
    logContext != "" && DeltaKey(warpKey, delta.classId, delta.primaryKey).Ok? &&
    ValidLong(delta.version) && FromLong(delta.version).value != 0
  }

  /** Listener lists only disappear: every list still there is the one that was. */
  predicate Narrowed(listeners: map<Handle, seq<ListenerId>>, listeners2: map<Handle, seq<ListenerId>>)
  {
    listeners2.Keys <= listeners.Keys && forall h :: h in listeners2 ==> listeners2[h] == listeners[h]
  }

  /**
   * The state a merge reads and writes, as values: the heap's objects, the
   * tracker's resolution, update and delete queues, and the data
   * registry's classes, weak instance entries and versions.
   */
  datatype Store = Store(objects: seq<Obj>, pending: seq<ResolutionItem>, updates: seq<DataUpdatedEvent>,
                         deletes: seq<DataKey>, classes: map<string, DataClassRegistration>,
                         refs: map<string, WeakRef>, versions: map<Handle, Unsigned>)

  ghost function StoreOf(heap: Heap, tracker: Tracker, dreg: DataRegistry): Store
    reads heap, tracker, dreg, dreg.classes, dreg.objects
  {
    Store(heap.objects, tracker.resolution, tracker.updates, tracker.deletes, dreg.classes.entries,
          dreg.objects.entries, dreg.versions)
  }

  /** The live instance under a key, read from the weak entries. */
  function InstanceIn(s: Store, key: DataKey): Option<Handle>
  {
    var k := DataKeyValue(key);
    if k in s.refs && s.refs[k].alive then Some(s.refs[k].target) else None
  }

  /** The version known for the live instance under a key. */
  function KnownIn(s: Store, key: DataKey): Option<Unsigned>
  {
    match InstanceIn(s, key)
    case None => None
    case Some(h) => if h in s.versions then Some(s.versions[h]) else None
  }

  /** The constructor registered for a data class. */
  function CtorIn(s: Store, classKey: ClassKey): Result<Ctor>
  {
    var k := ClassKeyValue(DataClass, classKey);
    if k in s.classes then Ok(s.classes[k].ctor) else Err(MissingValue)
  }

  /** The registry's lookups read the same as the lookups on its store. */
  lemma StoreAgrees(heap: Heap, tracker: Tracker, dreg: DataRegistry, key: DataKey)
    requires dreg.Valid()
    ensures dreg.TryGetInstance(key) == InstanceIn(StoreOf(heap, tracker, dreg), key)
    ensures Known(dreg, key) == KnownIn(StoreOf(heap, tracker, dreg), key)
    ensures dreg.GetCtor(key.classKey) == CtorIn(StoreOf(heap, tracker, dreg), key.classKey)
  {
  }

  /**
   * mergeDelta as a relation between the store before (`s`), the outcome
   * and the store after (`s1`). The checks come first (log context,
   * primary key, class id, version 0) and change nothing; then the
   * object's fate is decided by `Decide`: Delete notifies a live instance
   * with deleted = true and always enqueues the key for deletion; Create
   * reuses a locally created instance or installs a new one, merges, sets
   * version 1 and notifies; Advance merges into the instance, sets the
   * delta's version and notifies; Reject drops the key from the registry
   * and enqueues a resolution with no callback, which refetches the object.
   */
  predicate Merged(sreg: ServiceRegistry, logContext: string, warpKey: WarpKey, delta: DataDelta, fuel: nat,
                   s: Store, r: Outcome, s1: Store)
    reads sreg, sreg.classes
  {
    var dk := DeltaKey(warpKey, delta.classId, delta.primaryKey);
    s1.classes == s.classes &&
    (logContext == "" ==> r == Fail(Falsy("logContext"))) &&
    (logContext != "" && dk.Err? ==> r == Fail(dk.error)) &&
    (logContext != "" && dk.Ok? && ValidLong(delta.version) && FromLong(delta.version).value == 0 ==>
      r == Fail(InvalidVersion)) &&
    (!Readable(logContext, warpKey, delta) ==>
      s1.objects == s.objects && s1.pending == s.pending && s1.updates == s.updates && s1.deletes == s.deletes &&
      s1.refs == s.refs && s1.versions == s.versions) &&
    (Readable(logContext, warpKey, delta) ==> MergedReadable(sreg, logContext, warpKey, delta, fuel, s, r, s1))
  }

  /** The part of `Merged` past the checks: the object's fate, as `Decide` chooses it. */
  predicate MergedReadable(sreg: ServiceRegistry, logContext: string, warpKey: WarpKey, delta: DataDelta, fuel: nat,
                           s: Store, r: Outcome, s1: Store)
    requires Readable(logContext, warpKey, delta)
    reads sreg, sreg.classes
  {
    var key := DeltaKey(warpKey, delta.classId, delta.primaryKey).value;
    var version := FromLong(delta.version);
    var live := InstanceIn(s, key);
    match Decide(delta.deleted, KnownIn(s, key), version)
    case Delete =>
      r == Pass && s1.objects == s.objects && s1.pending == s.pending &&
      s1.updates == s.updates + (if live.Some? then [DataUpdatedEvent(live.value, true)] else []) &&
      s1.deletes == s.deletes + [key] && s1.refs == s.refs && s1.versions == s.versions
    case Reject =>
      r == Pass && s1.objects == s.objects && s1.refs == s.refs - {DataKeyValue(key)} &&
      s1.versions == (if live.Some? then s.versions - {live.value} else s.versions) &&
      s1.pending == s.pending + [Single(key, Discard)] && s1.updates == s.updates && s1.deletes == s.deletes
    case Create => CreatedFrom(sreg, logContext, warpKey, delta, fuel, key, s, r, s1)
    case Advance => AdvancedFrom(sreg, logContext, warpKey, delta, fuel, key, live.value, version, s, r, s1)
  }

  /**
   * The Create fate: a locally created instance is reused, otherwise one is
   * installed with the registered constructor (a missing one fails); the
   * properties are merged into it, at version 1, and it is notified.
   */
  predicate CreatedFrom(sreg: ServiceRegistry, logContext: string, warpKey: WarpKey, delta: DataDelta, fuel: nat,
                        key: DataKey, s: Store, r: Outcome, s1: Store)
    reads sreg, sreg.classes
  {
    var live := InstanceIn(s, key);
    (live.None? && CtorIn(s, key.classKey).Err? ==> r == Fail(CtorIn(s, key.classKey).error) && s1 == s) &&
    (live.Some? || CtorIn(s, key.classKey).Ok? ==>
      var h := if live.Some? then live.value else |s.objects|;
      var objects := if live.Some? then s.objects
                     else s.objects + [DataObj(CtorIn(s, key.classKey).value, key.primaryKey, [])];
      var m := MergedProps(sreg, logContext, warpKey, delta.properties, delta.deletedProperties, h,
                           DState(objects, s.pending), fuel);
      (r.Pass? <==> m.Ok?) &&
      s1.refs == (if live.Some? then s.refs else s.refs[DataKeyValue(key) := WeakRef(h, true)]) &&
      s1.versions == (if r.Pass? then s.versions[h := One] else s.versions) &&
      (r.Pass? ==>
        s1.objects == m.value.objects && s1.pending == m.value.pending &&
        s1.updates == s.updates + [DataUpdatedEvent(h, false)] && s1.deletes == s.deletes))
  }

  /** The Advance fate: the properties merged into the live instance `h`, at `version`, and it is notified. */
  predicate AdvancedFrom(sreg: ServiceRegistry, logContext: string, warpKey: WarpKey, delta: DataDelta, fuel: nat,
                         key: DataKey, h: Handle, version: Unsigned, s: Store, r: Outcome, s1: Store)
    reads sreg, sreg.classes
  {
    var m := MergedProps(sreg, logContext, warpKey, delta.properties, delta.deletedProperties, h,
                         DState(s.objects, s.pending), fuel);
    (r.Pass? <==> m.Ok?) &&
    s1.refs == s.refs && s1.versions == (if r.Pass? then s.versions[h := version] else s.versions) &&
    (r.Pass? ==>
      s1.objects == m.value.objects && s1.pending == m.value.pending &&
      s1.updates == s.updates + [DataUpdatedEvent(h, false)] && s1.deletes == s.deletes)
  }

  /** Live weak entries under distinct keys hold distinct objects, all of them allocated. */
  predicate Separate(s: Store)
  {
    (forall k :: k in s.refs && s.refs[k].alive ==> s.refs[k].target < |s.objects|) &&
    (forall k1, k2 ::
       k1 in s.refs && k2 in s.refs && s.refs[k1].alive && s.refs[k2].alive && s.refs[k1].target == s.refs[k2].target
       ==> k1 == k2)
  }

  /** A coherent registry and heap give a separate store: an object is the instance of one key only. */
  lemma CoherentSeparate(heap: Heap, tracker: Tracker, dreg: DataRegistry)
    requires Coherent(heap, dreg)
    ensures Separate(StoreOf(heap, tracker, dreg))
  {
  }

  /**
   * A merge touches the registry at its own key only: every other key
   * keeps its instance and the version known for it, whatever the outcome.
   */
  lemma MergeKeepsOthers(sreg: ServiceRegistry, logContext: string, warpKey: WarpKey, delta: DataDelta, fuel: nat,
                         s: Store, r: Outcome, s1: Store, other: DataKey)
    requires Merged(sreg, logContext, warpKey, delta, fuel, s, r, s1) && Separate(s)
    requires DeltaKey(warpKey, delta.classId, delta.primaryKey).Ok? ==>
      DataKeyValue(other) != DataKeyValue(DeltaKey(warpKey, delta.classId, delta.primaryKey).value)
    ensures InstanceIn(s1, other) == InstanceIn(s, other)
    ensures KnownIn(s1, other) == KnownIn(s, other)
  {
    var o := DataKeyValue(other);
    if Readable(logContext, warpKey, delta) {
      var key := DeltaKey(warpKey, delta.classId, delta.primaryKey).value;
      var k := DataKeyValue(key);
      var live := InstanceIn(s, key);
      assert s1.refs == s.refs || s1.refs == s.refs - {k} || s1.refs == s.refs[k := WeakRef(|s.objects|, true)] by {
        match Decide(delta.deleted, KnownIn(s, key), FromLong(delta.version))
        case Create =>
          if live.None? && CtorIn(s, key.classKey).Ok? {
            assert s1.refs == s.refs[k := WeakRef(|s.objects|, true)];
          }
        case _ =>
      }
      assert InstanceIn(s1, other) == InstanceIn(s, other);
      if InstanceIn(s, other).Some? {
        var h2 := InstanceIn(s, other).value;
        assert live.Some? ==> live.value != h2;
        assert h2 < |s.objects|;
      }
    }
  }

  /** A passing merge keeps the store separate, so the next merge of a message can rely on it too. */
  lemma MergeKeepsSeparate(sreg: ServiceRegistry, logContext: string, warpKey: WarpKey, delta: DataDelta, fuel: nat,
                           s: Store, s1: Store)
    requires Merged(sreg, logContext, warpKey, delta, fuel, s, Pass, s1) && Separate(s)
    ensures Separate(s1)
  {
    if Readable(logContext, warpKey, delta) {
      var key := DeltaKey(warpKey, delta.classId, delta.primaryKey).value;
      var live := InstanceIn(s, key);
      match Decide(delta.deleted, KnownIn(s, key), FromLong(delta.version))
      case Create =>
        var h := if live.Some? then live.value else |s.objects|;
        var objects := if live.Some? then s.objects
                       else s.objects + [DataObj(CtorIn(s, key.classKey).value, key.primaryKey, [])];
        assert |objects| <= |s1.objects|;
        assert live.None? ==> s1.refs == s.refs[DataKeyValue(key) := WeakRef(|s.objects|, true)];
      case Advance =>
        assert |s.objects| <= |s1.objects|;
      case _ =>
    }
  }

  /**
   * On its own key, a passing merge that does not delete moves the known
   * version as the state machine says: to the delta's version when it is
   * accepted, to none when it is rejected (the instance is forgotten).
   */
  lemma MergeOwnKnown(sreg: ServiceRegistry, logContext: string, warpKey: WarpKey, delta: DataDelta, fuel: nat,
                      s: Store, s1: Store)
    requires Merged(sreg, logContext, warpKey, delta, fuel, s, Pass, s1) && !delta.deleted
    requires Readable(logContext, warpKey, delta)
    ensures var key := DeltaKey(warpKey, delta.classId, delta.primaryKey).value;
      var version := FromLong(delta.version);
      KnownIn(s1, key) == if Decide(false, KnownIn(s, key), version) == Reject then None else Some(version)
  {
    var key := DeltaKey(warpKey, delta.classId, delta.primaryKey).value;
    var version := FromLong(delta.version);
    var live := InstanceIn(s, key);
    match Decide(false, KnownIn(s, key), version)
    case Create =>
      var h := if live.Some? then live.value else |s.objects|;
      assert InstanceIn(s1, key) == Some(h);
      assert version == One;
    case Advance =>
      assert InstanceIn(s1, key) == live;
    case Reject =>
      assert DataKeyValue(key) !in s1.refs;
  }

  /** mergeDelta: the state change `Merged` describes, on the heap, the tracker and the registry. */
  method MergeDelta(heap: Heap, tracker: Tracker, dreg: DataRegistry, sreg: ServiceRegistry,
                    logContext: string, warpKey: WarpKey, delta: DataDelta, fuel: nat) returns (r: Outcome)
    requires ValidLong(delta.version)
    requires Coherent(heap, dreg)
    modifies heap, tracker, dreg, dreg.objects
    ensures Coherent(heap, dreg)
    ensures Merged(sreg, logContext, warpKey, delta, fuel, old(StoreOf(heap, tracker, dreg)), r, StoreOf(heap, tracker, dreg))
    ensures heap.trace == old(heap.trace) && tracker.messages == old(tracker.messages)
    ensures Narrowed(old(dreg.updatedListeners), dreg.updatedListeners)
  {
    if logContext == "" {
      return Fail(Falsy("logContext"));
    }
    var key := DeltaKey(warpKey, delta.classId, delta.primaryKey);
    if key.Err? {
      return Fail(key.error);
    }
    var version := FromLong(delta.version);
    if version.value == 0 {
      return Fail(InvalidVersion);
    }
    r := MergeReadable(heap, tracker, dreg, sreg, logContext, warpKey, delta, fuel);
  }

  /** mergeDelta past its checks: the object's fate decided and carried out. */
  method MergeReadable(heap: Heap, tracker: Tracker, dreg: DataRegistry, sreg: ServiceRegistry,
                       logContext: string, warpKey: WarpKey, delta: DataDelta, fuel: nat) returns (r: Outcome)
    requires Readable(logContext, warpKey, delta)
    requires Coherent(heap, dreg)
    modifies heap, tracker, dreg, dreg.objects
    ensures Coherent(heap, dreg)
    ensures StoreOf(heap, tracker, dreg).classes == old(StoreOf(heap, tracker, dreg)).classes
    ensures MergedReadable(sreg, logContext, warpKey, delta, fuel, old(StoreOf(heap, tracker, dreg)), r,
                           StoreOf(heap, tracker, dreg))
    ensures heap.trace == old(heap.trace) && tracker.messages == old(tracker.messages)
    ensures Narrowed(old(dreg.updatedListeners), dreg.updatedListeners)
  {
    var key := DeltaKey(warpKey, delta.classId, delta.primaryKey);
    var version := FromLong(delta.version);
    var live := dreg.TryGetInstance(key.value);
    var known := if live.Some? then dreg.TryGetVersion(live.value) else None;
    assert known == Known(dreg, key.value);
    match Decide(delta.deleted, known, version)
    case Create =>
      r := MergeCreate(heap, tracker, dreg, sreg, logContext, warpKey, delta, fuel);
    case Advance =>
      r := MergeAdvance(heap, tracker, dreg, sreg, logContext, warpKey, delta, fuel);
    case _ =>
      r := MergeAway(heap, tracker, dreg, sreg, logContext, warpKey, delta, fuel);
  }

  /** The Delete and Reject fates: no property is read and the outcome is Pass. */
  method MergeAway(heap: Heap, tracker: Tracker, dreg: DataRegistry, sreg: ServiceRegistry,
                   logContext: string, warpKey: WarpKey, delta: DataDelta, fuel: nat) returns (r: Outcome)
    requires Readable(logContext, warpKey, delta)
    requires Coherent(heap, dreg)
    requires var key := DeltaKey(warpKey, delta.classId, delta.primaryKey).value;
      Decide(delta.deleted, Known(dreg, key), FromLong(delta.version)) in {Delete, Reject}
    modifies tracker, dreg, dreg.objects
    ensures Coherent(heap, dreg) && r == Pass
    ensures StoreOf(heap, tracker, dreg).classes == old(StoreOf(heap, tracker, dreg)).classes
    ensures MergedReadable(sreg, logContext, warpKey, delta, fuel, old(StoreOf(heap, tracker, dreg)), r,
                           StoreOf(heap, tracker, dreg))
    ensures tracker.messages == old(tracker.messages)
    ensures Narrowed(old(dreg.updatedListeners), dreg.updatedListeners)
  {
    var key := DeltaKey(warpKey, delta.classId, delta.primaryKey);
    StoreAgrees(heap, tracker, dreg, key.value);
    var live := dreg.TryGetInstance(key.value);
    if delta.deleted {
      DeleteObject(tracker, key.value, live);
    } else {
      RejectDelta(tracker, dreg, key.value);
    }
    r := Pass;
    StoreAgrees(heap, tracker, dreg, key.value);
  }

  /** The Create fate: the properties merged into the locally created instance or a new one, at version 1. */
  method MergeCreate(heap: Heap, tracker: Tracker, dreg: DataRegistry, sreg: ServiceRegistry,
                     logContext: string, warpKey: WarpKey, delta: DataDelta, fuel: nat) returns (r: Outcome)
    requires Readable(logContext, warpKey, delta)
    requires Coherent(heap, dreg)
    requires var key := DeltaKey(warpKey, delta.classId, delta.primaryKey).value;
      Decide(delta.deleted, Known(dreg, key), FromLong(delta.version)) == Create
    modifies heap, tracker, dreg, dreg.objects
    ensures Coherent(heap, dreg)
    ensures StoreOf(heap, tracker, dreg).classes == old(StoreOf(heap, tracker, dreg)).classes
    ensures MergedReadable(sreg, logContext, warpKey, delta, fuel, old(StoreOf(heap, tracker, dreg)), r,
                           StoreOf(heap, tracker, dreg))
    ensures heap.trace == old(heap.trace) && tracker.messages == old(tracker.messages)
    ensures Narrowed(old(dreg.updatedListeners), dreg.updatedListeners)
  {
    var key := DeltaKey(warpKey, delta.classId, delta.primaryKey);
    StoreAgrees(heap, tracker, dreg, key.value);
    var live := dreg.TryGetInstance(key.value);
    r := CreateObject(heap, tracker, dreg, sreg, logContext, warpKey, key.value, live, delta, fuel);
    StoreAgrees(heap, tracker, dreg, key.value);
  }

  /** The Advance fate: the properties merged into the live instance, at the delta's version. */
  method MergeAdvance(heap: Heap, tracker: Tracker, dreg: DataRegistry, sreg: ServiceRegistry,
                      logContext: string, warpKey: WarpKey, delta: DataDelta, fuel: nat) returns (r: Outcome)
    requires Readable(logContext, warpKey, delta)
    requires Coherent(heap, dreg)
    requires var key := DeltaKey(warpKey, delta.classId, delta.primaryKey).value;
      Decide(delta.deleted, Known(dreg, key), FromLong(delta.version)) == Advance
    modifies heap, tracker, dreg, dreg.objects
    ensures Coherent(heap, dreg)
    ensures StoreOf(heap, tracker, dreg).classes == old(StoreOf(heap, tracker, dreg)).classes
    ensures MergedReadable(sreg, logContext, warpKey, delta, fuel, old(StoreOf(heap, tracker, dreg)), r,
                           StoreOf(heap, tracker, dreg))
    ensures heap.trace == old(heap.trace) && tracker.messages == old(tracker.messages)
    ensures Narrowed(old(dreg.updatedListeners), dreg.updatedListeners)
  {
    var key := DeltaKey(warpKey, delta.classId, delta.primaryKey);
    StoreAgrees(heap, tracker, dreg, key.value);
    var live := dreg.TryGetInstance(key.value);
    r := AdvanceObject(heap, tracker, dreg, sreg, logContext, warpKey, key.value, live.value, FromLong(delta.version),
                       delta, fuel);
    StoreAgrees(heap, tracker, dreg, key.value);
  }

  /** The deleted branch: notify the live instance, if any, and enqueue the key for deletion. */
  method DeleteObject(tracker: Tracker, key: DataKey, live: Option<Handle>)
    modifies tracker
    ensures tracker.updates == old(tracker.updates) + (if live.Some? then [DataUpdatedEvent(live.value, true)] else [])
    ensures tracker.deletes == old(tracker.deletes) + [key]
    ensures tracker.resolution == old(tracker.resolution) && tracker.messages == old(tracker.messages)
  {
    if live.Some? {
      tracker.EnqueueUpdate(live.value, true);
    }
    tracker.EnqueueDelete(key);
  }

  /** The rejected branch: forget the instance and refetch the object. */
  method RejectDelta(tracker: Tracker, dreg: DataRegistry, key: DataKey)
    requires dreg.Valid()
    modifies tracker, dreg, dreg.objects
    ensures dreg.Valid() && dreg.TryGetInstance(key) == None
    ensures dreg.objects.entries == old(dreg.objects.entries) - {DataKeyValue(key)}
    ensures old(dreg.TryGetInstance(key)).Some? ==>
      var h := old(dreg.TryGetInstance(key)).value;
      dreg.versions == old(dreg.versions) - {h} && dreg.objectKeys == old(dreg.objectKeys) - {h} &&
      dreg.updatedListeners == old(dreg.updatedListeners) - {h}
    ensures old(dreg.TryGetInstance(key)).None? ==>
      dreg.versions == old(dreg.versions) && dreg.objectKeys == old(dreg.objectKeys) &&
      dreg.updatedListeners == old(dreg.updatedListeners)
    ensures tracker.resolution == old(tracker.resolution) + [Single(key, Discard)]
    ensures tracker.updates == old(tracker.updates) && tracker.deletes == old(tracker.deletes) && tracker.messages == old(tracker.messages)
    ensures Narrowed(old(dreg.updatedListeners), dreg.updatedListeners)
  {
    dreg.Remove(key);
    tracker.Enqueue(key, Discard);
  }

  /**
   * The create branch: reuse the locally created instance or install a new
   * one, then merge, set version 1 and notify as an advance does.
   */
  method CreateObject(heap: Heap, tracker: Tracker, dreg: DataRegistry, sreg: ServiceRegistry, logContext: string,
                      warpKey: WarpKey, key: DataKey, live: Option<Handle>, delta: DataDelta, fuel: nat) returns (r: Outcome)
    requires Coherent(heap, dreg) && live == dreg.TryGetInstance(key)
    modifies heap, tracker, dreg, dreg.objects
    ensures Coherent(heap, dreg)
    ensures live.None? && old(dreg.GetCtor(key.classKey)).Err? ==>
      r == Fail(old(dreg.GetCtor(key.classKey)).error) && heap.objects == old(heap.objects) &&
      tracker.resolution == old(tracker.resolution) && tracker.updates == old(tracker.updates) &&
      dreg.objects.entries == old(dreg.objects.entries) && dreg.versions == old(dreg.versions)
    ensures live.Some? || old(dreg.GetCtor(key.classKey)).Ok? ==>
      var h := if live.Some? then live.value else |old(heap.objects)|;
      var objects := if live.Some? then old(heap.objects)
                     else old(heap.objects) + [DataObj(old(dreg.GetCtor(key.classKey)).value, key.primaryKey, [])];
      var m := MergedProps(sreg, logContext, warpKey, delta.properties, delta.deletedProperties, h,
                           DState(objects, old(tracker.resolution)), fuel);
      (r.Pass? <==> m.Ok?) &&
      dreg.objects.entries == (if live.Some? then old(dreg.objects.entries)
                               else old(dreg.objects.entries)[DataKeyValue(key) := WeakRef(h, true)]) &&
      dreg.versions == (if r.Pass? then old(dreg.versions)[h := One] else old(dreg.versions)) &&
      (r.Pass? ==> heap.objects == m.value.objects && tracker.resolution == m.value.pending &&
                   dreg.TryGetInstance(key) == Some(h) &&
                   tracker.updates == old(tracker.updates) + [DataUpdatedEvent(h, false)])
    ensures tracker.deletes == old(tracker.deletes) && tracker.messages == old(tracker.messages)
    ensures heap.trace == old(heap.trace) && dreg.updatedListeners == old(dreg.updatedListeners)
  {
    var h: Handle;
    if live.Some? {
      h := live.value;
    } else {
      var made := Install(heap, dreg, key);
      if made.Err? {
        return Fail(made.error);
      }
      h := made.value;
    }
    r := AdvanceObject(heap, tracker, dreg, sreg, logContext, warpKey, key, h, One, delta, fuel);
  }

  /** createDataInstance followed by setInstance, for a key with no live instance. */
  method Install(heap: Heap, dreg: DataRegistry, key: DataKey) returns (r: Result<Handle>)
    requires Coherent(heap, dreg) && dreg.TryGetInstance(key).None?
    modifies heap, dreg, dreg.objects
    ensures Coherent(heap, dreg)
    ensures r.Ok? <==> old(dreg.GetCtor(key.classKey)).Ok?
    ensures r.Err? ==> r == Err(old(dreg.GetCtor(key.classKey)).error) && heap.objects == old(heap.objects)
    ensures r.Ok? ==>
      r.value == |old(heap.objects)| && dreg.TryGetInstance(key) == Some(r.value) &&
      heap.objects == old(heap.objects) + [DataObj(old(dreg.GetCtor(key.classKey)).value, key.primaryKey, [])]
    ensures r.Err? ==> dreg.objects.entries == old(dreg.objects.entries) && dreg.objectKeys == old(dreg.objectKeys)
    ensures r.Ok? ==>
      dreg.objects.entries == old(dreg.objects.entries)[DataKeyValue(key) := WeakRef(r.value, true)] &&
      dreg.objectKeys == old(dreg.objectKeys)[r.value := key]
    ensures dreg.versions == old(dreg.versions) && dreg.updatedListeners == old(dreg.updatedListeners)
    ensures heap.trace == old(heap.trace)
  {
    r := CreateDataInstance(heap, dreg, key);
    if r.Err? {
      return;
    }
    var installed := dreg.SetInstance(key, r.value);
  }

  /** The advance branch: merge into the instance, set the delta's version, notify. */
  method AdvanceObject(heap: Heap, tracker: Tracker, dreg: DataRegistry, sreg: ServiceRegistry, logContext: string,
                       warpKey: WarpKey, key: DataKey, h: Handle, version: Unsigned, delta: DataDelta, fuel: nat) returns (r: Outcome)
    requires Coherent(heap, dreg) && dreg.TryGetInstance(key) == Some(h) && version.value > 0
    modifies heap, tracker, dreg
    ensures Coherent(heap, dreg)
    ensures var m := MergedProps(sreg, logContext, warpKey, delta.properties, delta.deletedProperties, h,
                                 DState(old(heap.objects), old(tracker.resolution)), fuel);
      (r.Pass? <==> m.Ok?) &&
      (r.Pass? ==> heap.objects == m.value.objects && tracker.resolution == m.value.pending &&
                   dreg.TryGetInstance(key) == Some(h) && dreg.versions == old(dreg.versions)[h := version] &&
                   tracker.updates == old(tracker.updates) + [DataUpdatedEvent(h, false)])
    ensures r.Fail? ==> dreg.versions == old(dreg.versions)
    ensures tracker.deletes == old(tracker.deletes) && tracker.messages == old(tracker.messages)
    ensures heap.trace == old(heap.trace) && dreg.updatedListeners == old(dreg.updatedListeners)
  {
    ghost var objects0 := heap.objects;
    r := MergeProperties(heap, tracker, sreg, logContext, warpKey, h, delta.properties, delta.deletedProperties, fuel);
    AgreesKept(objects0, heap.objects, dreg.objectKeys);
    if r.Fail? {
      return;
    }
    Stamp(heap, tracker, dreg, key, h, version);
  }

  /** After a merge: the delta's version is recorded and the instance's listeners are notified. */
  method Stamp(heap: Heap, tracker: Tracker, dreg: DataRegistry, key: DataKey, h: Handle, version: Unsigned)
    requires Coherent(heap, dreg) && dreg.TryGetInstance(key) == Some(h) && version.value > 0
    modifies tracker, dreg
    ensures Coherent(heap, dreg) && dreg.TryGetInstance(key) == Some(h)
    ensures dreg.versions == old(dreg.versions)[h := version]
    ensures tracker.updates == old(tracker.updates) + [DataUpdatedEvent(h, false)]
    ensures tracker.resolution == old(tracker.resolution)
    ensures tracker.deletes == old(tracker.deletes) && tracker.messages == old(tracker.messages)
    ensures dreg.updatedListeners == old(dreg.updatedListeners)
  {
    var versioned := dreg.SetVersion(h, version);
    tracker.EnqueueUpdate(h, false);
  }

  /** Objects that keep their class and key keep agreeing with the registry. */
  lemma AgreesKept(objects: seq<Obj>, objects2: seq<Obj>, objectKeys: map<Handle, DataKey>)
    requires Agrees(objects, objectKeys) && KeepsData(objects, objects2)
    ensures Agrees(objects2, objectKeys)
  {
  }

  // ---------------------------------------------------------------------
  // replaceData.

  /** A snapshot passes the checks made before the registry is consulted. */
  predicate Loadable(logContext: string, snapshot: DataSnapshot)
  {
    logContext != "" && snapshot.classId != 0 && ValidLong(snapshot.version) &&
    FromLong(snapshot.version).value != 0 && snapshot.primaryKey != ""
  }

  /**
   * replaceData. After the checks (log context, class id, version 0,
   * primary key), a live instance receives a deleted snapshot as a
   * notification with deleted = true and a deletion, and the result is
   * null; otherwise it loses its own properties, is refilled from the
   * snapshot, takes the snapshot's version and is notified with
   * deleted = false. With no live instance a new one is installed, filled
   * and versioned, and nobody is notified; the deleted flag is not looked
   * at in that case.
   */
  method ReplaceData(heap: Heap, tracker: Tracker, dreg: DataRegistry, sreg: ServiceRegistry,
                     logContext: string, warpKey: WarpKey, snapshot: DataSnapshot, fuel: nat) returns (r: Result<Option<Handle>>)
    requires ValidLong(snapshot.version)
    requires Coherent(heap, dreg)
    modifies heap, tracker, dreg, dreg.objects
    ensures Coherent(heap, dreg)
    ensures logContext == "" ==> r == Err(Falsy("logContext"))
    ensures logContext != "" && snapshot.classId == 0 ==> r == Err(Falsy("classId"))
    ensures logContext != "" && snapshot.classId != 0 && FromLong(snapshot.version).value == 0 ==> r == Err(InvalidVersion)
    ensures logContext != "" && snapshot.classId != 0 && FromLong(snapshot.version).value != 0 && snapshot.primaryKey == "" ==>
      r == Err(EmptyPrimaryKey)
    ensures !Loadable(logContext, snapshot) ==>
      heap.objects == old(heap.objects) && tracker.resolution == old(tracker.resolution) &&
      tracker.updates == old(tracker.updates) && tracker.deletes == old(tracker.deletes) &&
      dreg.objects.entries == old(dreg.objects.entries) && dreg.versions == old(dreg.versions)
    ensures Loadable(logContext, snapshot) ==>
      var key := DataKey(ClassKey(warpKey, snapshot.classId), snapshot.primaryKey);
      var version := FromLong(snapshot.version);
      var live := old(dreg.TryGetInstance(key));
      if live.Some? && snapshot.deleted then
        r == Ok(None) && heap.objects == old(heap.objects) && tracker.resolution == old(tracker.resolution) &&
        tracker.updates == old(tracker.updates) + [DataUpdatedEvent(live.value, true)] &&
        tracker.deletes == old(tracker.deletes) + [key] && dreg.versions == old(dreg.versions) &&
        dreg.objects.entries == old(dreg.objects.entries)
      else if live.Some? then
        var h := live.value;
        var d := DecodeItems(sreg, logContext, warpKey, PropertyItems(snapshot.properties), h,
                             DState(Cleared(old(heap.objects), h), old(tracker.resolution)), fuel);
        (r.Ok? <==> d.Ok?) && dreg.objects.entries == old(dreg.objects.entries) &&
        (r.Ok? ==> r.value == Some(h) && heap.objects == d.value.objects && tracker.resolution == d.value.pending &&
                   dreg.TryGetInstance(key) == Some(h) && dreg.versions == old(dreg.versions)[h := version] &&
                   tracker.updates == old(tracker.updates) + [DataUpdatedEvent(h, false)] && tracker.deletes == old(tracker.deletes))
      else if old(dreg.GetCtor(key.classKey)).Err? then
        r == Err(old(dreg.GetCtor(key.classKey)).error) && heap.objects == old(heap.objects) &&
        tracker.resolution == old(tracker.resolution) && tracker.updates == old(tracker.updates) &&
        dreg.objects.entries == old(dreg.objects.entries) && dreg.versions == old(dreg.versions)
      else
        var h := |old(heap.objects)|;
        var objects := old(heap.objects) + [DataObj(old(dreg.GetCtor(key.classKey)).value, key.primaryKey, [])];
        var d := DecodeItems(sreg, logContext, warpKey, PropertyItems(snapshot.properties), h,
                             DState(objects, old(tracker.resolution)), fuel);
        (r.Ok? <==> d.Ok?) &&
        dreg.objects.entries == old(dreg.objects.entries)[DataKeyValue(key) := WeakRef(h, true)] &&
        (r.Ok? ==> r.value == Some(h) && heap.objects == d.value.objects && tracker.resolution == d.value.pending &&
                   dreg.TryGetInstance(key) == Some(h) && dreg.versions == old(dreg.versions)[h := version] &&
                   tracker.updates == old(tracker.updates) && tracker.deletes == old(tracker.deletes))
    ensures r.Err? ==> dreg.versions == old(dreg.versions)
    ensures r.Ok? && r.value.Some? ==>
      r.value.value < |heap.objects| && heap.objects[r.value.value].DataObj? &&
      heap.objects[r.value.value].primaryKey == snapshot.primaryKey
    ensures r.Ok? && r.value.None? ==> snapshot.deleted
    ensures r.Ok? ==> old(tracker.updates) <= tracker.updates && old(tracker.deletes) <= tracker.deletes
    ensures KeepsData(old(heap.objects), heap.objects)
    ensures dreg.updatedListeners == old(dreg.updatedListeners)
    ensures heap.trace == old(heap.trace) && tracker.messages == old(tracker.messages)
  {
    if logContext == "" {
      return Err(Falsy("logContext"));
    }
    var classKey := NewClassKey(warpKey, snapshot.classId);
    if classKey.Err? {
      return Err(classKey.error);
    }
    var version := FromLong(snapshot.version);
    if version.value == 0 {
      return Err(InvalidVersion);
    }
    if snapshot.primaryKey == "" {
      return Err(EmptyPrimaryKey);
    }
    var key := DataKey(classKey.value, snapshot.primaryKey);
    var live := dreg.TryGetInstance(key);
    if live.Some? && snapshot.deleted {
      DeleteObject(tracker, key, live);
      r := Ok(None);
    } else if live.Some? {
      r := ReplaceLive(heap, tracker, dreg, sreg, logContext, warpKey, key, live.value, version, snapshot.properties, fuel);
    } else {
      r := ReplaceMissing(heap, tracker, dreg, sreg, logContext, warpKey, key, version, snapshot.properties, fuel);
    }
  }

  /** replaceData on a live instance that is not deleted: its properties are replaced by the snapshot's. */
  method ReplaceLive(heap: Heap, tracker: Tracker, dreg: DataRegistry, sreg: ServiceRegistry, logContext: string,
                     warpKey: WarpKey, key: DataKey, h: Handle, version: Unsigned, props: seq<Property>, fuel: nat)
    returns (r: Result<Option<Handle>>)
    requires Coherent(heap, dreg) && dreg.TryGetInstance(key) == Some(h) && version.value > 0
    modifies heap, tracker, dreg
    ensures Coherent(heap, dreg)
    ensures r.Err? ==> dreg.versions == old(dreg.versions)
    ensures var d := DecodeItems(sreg, logContext, warpKey, PropertyItems(props), h,
                           DState(Cleared(old(heap.objects), h), old(tracker.resolution)), fuel);
      (r.Ok? <==> d.Ok?) &&
      (r.Ok? ==> r.value == Some(h) && heap.objects == d.value.objects && tracker.resolution == d.value.pending &&
                 dreg.TryGetInstance(key) == Some(h) && dreg.versions == old(dreg.versions)[h := version] &&
                 tracker.updates == old(tracker.updates) + [DataUpdatedEvent(h, false)] && tracker.deletes == old(tracker.deletes))
    ensures r.Ok? ==> h < |heap.objects| && heap.objects[h].DataObj? && heap.objects[h].primaryKey == key.primaryKey
    ensures KeepsData(old(heap.objects), heap.objects)
    ensures dreg.updatedListeners == old(dreg.updatedListeners)
    ensures heap.trace == old(heap.trace) && tracker.messages == old(tracker.messages)
  {
    ClearLive(heap, dreg, key, h);
    ghost var before := heap.objects;
    var filled := Refill(heap, tracker, dreg, sreg, logContext, warpKey, key, h, version, props, fuel);
    KeepsDataTrans(old(heap.objects), before, heap.objects);
    if filled.Fail? {
      return Err(filled.error);
    }
    tracker.EnqueueUpdate(h, false);
    r := Ok(Some(h));
  }

  /** The live instance loses its own properties and keeps its class and key. */
  method ClearLive(heap: Heap, dreg: DataRegistry, key: DataKey, h: Handle)
    requires Coherent(heap, dreg) && dreg.TryGetInstance(key) == Some(h)
    modifies heap
    ensures Coherent(heap, dreg) && heap.objects == Cleared(old(heap.objects), h)
    ensures KeepsData(old(heap.objects), heap.objects)
    ensures h < |heap.objects| && heap.objects[h].DataObj? && heap.objects[h].primaryKey == key.primaryKey
    ensures heap.trace == old(heap.trace)
  {
    heap.ClearProps(h);
    assert dreg.GetDataKey(h) == Ok(key);
  }

  /** replaceData with no live instance: a new instance is installed and filled, whatever the deleted flag says. */
  method ReplaceMissing(heap: Heap, tracker: Tracker, dreg: DataRegistry, sreg: ServiceRegistry, logContext: string,
                        warpKey: WarpKey, key: DataKey, version: Unsigned, props: seq<Property>, fuel: nat)
    returns (r: Result<Option<Handle>>)
    requires Coherent(heap, dreg) && dreg.TryGetInstance(key).None? && version.value > 0
    modifies heap, tracker, dreg, dreg.objects
    ensures Coherent(heap, dreg)
    ensures old(dreg.GetCtor(key.classKey)).Err? ==>
      r == Err(old(dreg.GetCtor(key.classKey)).error) && heap.objects == old(heap.objects) &&
      tracker.resolution == old(tracker.resolution) && tracker.updates == old(tracker.updates) &&
      dreg.objects.entries == old(dreg.objects.entries)
    ensures old(dreg.GetCtor(key.classKey)).Ok? ==>
      dreg.objects.entries == old(dreg.objects.entries)[DataKeyValue(key) := WeakRef(|old(heap.objects)|, true)]
    ensures r.Err? ==> dreg.versions == old(dreg.versions)
    ensures old(dreg.GetCtor(key.classKey)).Ok? ==>
      var h := |old(heap.objects)|;
      var objects := old(heap.objects) + [DataObj(old(dreg.GetCtor(key.classKey)).value, key.primaryKey, [])];
      var d := DecodeItems(sreg, logContext, warpKey, PropertyItems(props), h, DState(objects, old(tracker.resolution)), fuel);
      (r.Ok? <==> d.Ok?) &&
      (r.Ok? ==> r.value == Some(h) && heap.objects == d.value.objects && tracker.resolution == d.value.pending &&
                 dreg.TryGetInstance(key) == Some(h) && dreg.versions == old(dreg.versions)[h := version] &&
                 tracker.updates == old(tracker.updates) && tracker.deletes == old(tracker.deletes))
    ensures r.Ok? ==>
      r.value.Some? && r.value.value < |heap.objects| && heap.objects[r.value.value].DataObj? &&
      heap.objects[r.value.value].primaryKey == key.primaryKey
    ensures tracker.updates == old(tracker.updates) && tracker.deletes == old(tracker.deletes)
    ensures KeepsData(old(heap.objects), heap.objects)
    ensures dreg.updatedListeners == old(dreg.updatedListeners)
    ensures heap.trace == old(heap.trace) && tracker.messages == old(tracker.messages)
  {
    var made := Install(heap, dreg, key);
    if made.Err? {
      return Err(made.error);
    }
    var h := made.value;
    ghost var before := heap.objects;
    var filled := Refill(heap, tracker, dreg, sreg, logContext, warpKey, key, h, version, props, fuel);
    KeepsDataTrans(old(heap.objects), before, heap.objects);
    if filled.Fail? {
      return Err(filled.error);
    }
    r := Ok(Some(h));
  }

  /** The snapshot's properties read into the installed object, which then takes the snapshot's version. */
  method Refill(heap: Heap, tracker: Tracker, dreg: DataRegistry, sreg: ServiceRegistry, logContext: string,
                warpKey: WarpKey, key: DataKey, h: Handle, version: Unsigned, props: seq<Property>, fuel: nat) returns (r: Outcome)
    requires Coherent(heap, dreg) && dreg.TryGetInstance(key) == Some(h) && version.value > 0
    modifies heap, tracker, dreg
    ensures Coherent(heap, dreg)
    ensures var d := DecodeItems(sreg, logContext, warpKey, PropertyItems(props), h,
                                 DState(old(heap.objects), old(tracker.resolution)), fuel);
      (r.Pass? <==> d.Ok?) && (r.Fail? ==> r.error == d.error) &&
      (r.Pass? ==> heap.objects == d.value.objects && tracker.resolution == d.value.pending &&
                   dreg.TryGetInstance(key) == Some(h) && dreg.versions == old(dreg.versions)[h := version])
    ensures r.Fail? ==> dreg.versions == old(dreg.versions)
    ensures tracker.updates == old(tracker.updates) && tracker.deletes == old(tracker.deletes) && tracker.messages == old(tracker.messages)
    ensures KeepsData(old(heap.objects), heap.objects)
    ensures dreg.updatedListeners == old(dreg.updatedListeners)
    ensures heap.trace == old(heap.trace)
  {
    ghost var objects0 := heap.objects;
    r := DeserializeItems(heap, tracker, sreg, logContext, warpKey, PropertyItems(props), h, fuel);
    AgreesKept(objects0, heap.objects, dreg.objectKeys);
    if r.Fail? {
      return;
    }
    var versioned := dreg.SetVersion(h, version);
  }

  // ---------------------------------------------------------------------
  // What a snapshot of plain values leaves on the object.

  /** An encoded primitive, and the value it decodes to. */
  predicate IsPrimitiveValue(v: Value)
  {
    v.UndefinedValue? || v.NullValue? || v.BooleanValue? || v.NumberValue? || v.StringValue?
  }

  function NativeOf(v: Value): (x: Native)
    requires IsPrimitiveValue(v)
    ensures Primitive(x) && PrimitiveValue(x) == v
  {
    match v
    case UndefinedValue => Undefined
    case NullValue => Null
    case BooleanValue(b) => Bool(b)
    case NumberValue(n) => Number(n)
    case StringValue(s) => Str(s)
  }

  /** Named, distinct-named properties holding primitives. */
  predicate PlainProperties(props: seq<Property>)
  {
    (forall i :: 0 <= i < |props| ==> props[i].name != "" && props[i].value.Some? && IsPrimitiveValue(props[i].value.value)) &&
    forall i, j :: 0 <= i < j < |props| ==> props[i].name != props[j].name
  }

  /** The names of a snapshot's properties, in order. */
  function SnapshotNames(props: seq<Property>): (names: seq<string>)
    ensures |names| == |props| && forall i :: 0 <= i < |props| ==> names[i] == props[i].name
  {
    seq(|props|, i requires 0 <= i < |props| => props[i].name)
  }

  /**
   * Reading the first n properties of a snapshot of plain values into a
   * Data object without properties gives it exactly those properties, in
   * the snapshot's order, with those values, and enqueues nothing: after
   * replaceData, nothing of the object's earlier state survives.
   */
  lemma {:induction false} SnapshotProperties(sreg: ServiceRegistry, logContext: string, warpKey: WarpKey, props: seq<Property>,
                                              h: Handle, st: DState, fuel: nat, n: nat)
    requires PlainProperties(props) && n <= |props|
    requires fuel > 0 && logContext != ""
    requires h < |st.objects| && st.objects[h].DataObj? && st.objects[h].props == []
    ensures var d := DecodeItems(sreg, logContext, warpKey, PropertyItems(props)[..n], h, st, fuel);
      d.Ok? && d.value.pending == st.pending && |d.value.objects| == |st.objects| && d.value.objects[h].DataObj? &&
      Names(d.value.objects[h].props) == SnapshotNames(props[..n]) &&
      forall i :: 0 <= i < n ==> Lookup(d.value.objects[h].props, props[i].name) == Some(NativeOf(props[i].value.value))
  {
    if n == 0 {
      assert PropertyItems(props)[..0] == [];
    } else {
      var m := n - 1;
      SnapshotProperties(sreg, logContext, warpKey, props, h, st, fuel, m);
      assert PropertyItems(props)[..n][..m] == PropertyItems(props)[..m];
      var st1 := DecodeItems(sreg, logContext, warpKey, PropertyItems(props)[..m], h, st, fuel).value;
      var x := NativeOf(props[m].value.value);
      DecodeItemsLast(sreg, logContext, warpKey, PropertyItems(props)[..n], h, st, fuel, st1);
      assert props[m] == Property(props[m].name, Some(PrimitiveValue(x)));
      DecodePrimitiveProperty(sreg, logContext, warpKey, props[m].name, x, h, st1, fuel);
      SnapshotStep(props, m, st1.objects[h].props);
    }
  }

  /** One more snapshot property set on an object holding exactly the ones before it. */
  lemma SnapshotStep(props: seq<Property>, m: nat, before: Props)
    requires PlainProperties(props) && m < |props|
    requires Names(before) == SnapshotNames(props[..m])
    requires forall i :: 0 <= i < m ==> Lookup(before, props[i].name) == Some(NativeOf(props[i].value.value))
    ensures var after := SetProp(before, props[m].name, NativeOf(props[m].value.value));
      Names(after) == SnapshotNames(props[..m + 1]) &&
      forall i :: 0 <= i <= m ==> Lookup(after, props[i].name) == Some(NativeOf(props[i].value.value))
  {
    var name, x := props[m].name, NativeOf(props[m].value.value);
    NameNotYetSet(props, m, before);
    SnapshotNamesNext(props, m);
    var after := SetProp(before, name, x);
    SetPropNames(before, name, x);
    forall i | 0 <= i < m ensures Lookup(after, props[i].name) == Some(NativeOf(props[i].value.value)) {
      assert props[i].name != name;
    }
  }

  /** The next snapshot property is not among those set before it, the names being distinct. */
  lemma NameNotYetSet(props: seq<Property>, m: nat, before: Props)
    requires PlainProperties(props) && m < |props|
    requires Names(before) == SnapshotNames(props[..m])
    ensures props[m].name !in Names(before)
  {
    forall j | 0 <= j < |before| ensures Names(before)[j] != props[m].name {
      assert Names(before)[j] == props[..m][j].name == props[j].name;
    }
  }

  lemma SnapshotNamesNext(props: seq<Property>, m: nat)
    requires m < |props|
    ensures SnapshotNames(props[..m + 1]) == SnapshotNames(props[..m]) + [props[m].name]
  {
    var names, names' := SnapshotNames(props[..m]), SnapshotNames(props[..m + 1]);
    forall k | 0 <= k < |names'| ensures names'[k] == (names + [props[m].name])[k] {
      if k < m {
        assert names'[k] == props[k].name == names[k];
      }
    }
  }
}
