/**
 * deserializeValue: an encoded value read back into the heap. Containers
 * are allocated first and filled item by item; a Data reference is never
 * turned into an instance here: it is returned as its DataKey, and inside a
 * container it leaves a resolution item on the tracker that will store the
 * instance once it is known.
 *
 * `Decode` is the specification, a function of the heap's objects and the
 * tracker's pending resolutions; `DeserializeValue` and its loop are the
 * source's recursive method, proved equal to it.
 */
module Decoding {
  import opened Wrappers
  import opened Keys
  import opened JsHeap
  import opened Wire
  import opened Registry
  import opened Tracking
  import opened Codec

  /** A decoded value: a plain value, or the key of a Data object still to be resolved. */
  datatype Decoded = Plain(value: Native) | Unresolved(key: DataKey)

  /** What decoding changes: the heap's objects and the pending resolutions. */
  datatype DState = DState(objects: seq<Obj>, pending: seq<ResolutionItem>)

  /** One item of a container, whichever kind of container holds it. */
  datatype Item =
    | PropertyItem(property: Property)
    | ElementItem(element: ArrayItem)
    | EntryItem(entry: MapItem)
    | MemberItem(member: Value)

  predicate IsContainer(v: Value)
  {
    v.ObjectValue? || v.ArrayValue? || v.MapValue? || v.SetValue?
  }

  /** The empty object a container is read into. */
  function EmptyOf(v: Value): (o: Obj)
    requires IsContainer(v)
    ensures v.ObjectValue? <==> o.PlainObj?
    ensures v.ArrayValue? <==> o.ArrayObj?
    ensures v.MapValue? <==> o.MapObj?
    ensures v.SetValue? <==> o.SetObj?
  {
    match v
    case ObjectValue(_) => PlainObj([])
    case ArrayValue(_) => ArrayObj([])
    case MapValue(_) => MapObj([])
    case SetValue(_) => SetObj([])
  }

  /** The items of a container, in order. */
  function ItemsOf(v: Value): (items: seq<Item>)
    requires IsContainer(v)
    ensures v.ObjectValue? ==> |items| == |v.properties| && forall i :: 0 <= i < |items| ==> items[i] == PropertyItem(v.properties[i])
    ensures v.ArrayValue? ==> |items| == |v.items| && forall i :: 0 <= i < |items| ==> items[i] == ElementItem(v.items[i])
    ensures v.MapValue? ==> |items| == |v.entries| && forall i :: 0 <= i < |items| ==> items[i] == EntryItem(v.entries[i])
    ensures v.SetValue? ==> |items| == |v.members| && forall i :: 0 <= i < |items| ==> items[i] == MemberItem(v.members[i])
  {
    match v
    case ObjectValue(ps) => seq(|ps|, i requires 0 <= i < |ps| => PropertyItem(ps[i]))
    case ArrayValue(es) => seq(|es|, i requires 0 <= i < |es| => ElementItem(es[i]))
    case MapValue(ms) => seq(|ms|, i requires 0 <= i < |ms| => EntryItem(ms[i]))
    case SetValue(vs) => seq(|vs|, i requires 0 <= i < |vs| => MemberItem(vs[i]))
  }

  /** The object a resolution item will write into. */
  function TargetOf(item: ResolutionItem): Option<Handle>
  {
    match item.callback
    case Discard => None
    case Assign(target, _) => Some(target)
    case AssignPair(target) => Some(target)
  }

  /** No object disappears, and a Data object keeps its class and primary key. */
  predicate KeepsData(objects: seq<Obj>, objects2: seq<Obj>)
  {
    |objects| <= |objects2| &&
    forall i :: 0 <= i < |objects| && objects[i].DataObj? ==>
      objects2[i].DataObj? && objects2[i].ctor == objects[i].ctor && objects2[i].primaryKey == objects[i].primaryKey
  }

  /**
   * A decode step from `st` to `st2` only appends objects and resolutions,
   * leaves the old objects alone except the container `h` being filled
   * (which stays the same Data object if it is one), and every resolution
   * it adds writes into `h` or into an object it allocated.
   */
  predicate Extends(st: DState, st2: DState, h: Option<Handle>)
  {
    KeepsData(st.objects, st2.objects) &&
    st.pending <= st2.pending &&
    (forall i :: 0 <= i < |st.objects| && Some(i) != h ==> st2.objects[i] == st.objects[i]) &&
    forall j :: |st.pending| <= j < |st2.pending| ==>
      TargetOf(st2.pending[j]).Some? &&
      (TargetOf(st2.pending[j]) == h || |st.objects| <= TargetOf(st2.pending[j]).value < |st2.objects|)
  }

  lemma KeepsDataTrans(o1: seq<Obj>, o2: seq<Obj>, o3: seq<Obj>)
    requires KeepsData(o1, o2) && KeepsData(o2, o3)
    ensures KeepsData(o1, o3)
  {
  }

  lemma ExtendsTrans(st1: DState, st2: DState, st3: DState, h: Option<Handle>)
    requires Extends(st1, st2, h) && Extends(st2, st3, h)
    ensures Extends(st1, st3, h)
  {
    forall j | |st1.pending| <= j < |st3.pending|
      ensures TargetOf(st3.pending[j]).Some? &&
        (TargetOf(st3.pending[j]) == h || |st1.objects| <= TargetOf(st3.pending[j]).value < |st3.objects|)
    {
      if j < |st2.pending| {
        assert st3.pending[j] == st2.pending[j];
      }
    }
  }

  /**
   * A decoded item lands in container `h`: a plain value is stored at once,
   * a reference leaves one resolution that will store the instance.
   */
  function Place(d: Decoded, h: Handle, e: Effect, st: DState): (r: DState)
    ensures d.Unresolved? ==> r == DState(st.objects, st.pending + [Single(d.key, Assign(h, e))])
    ensures d.Plain? ==> r == DState(Performed(st.objects, h, e, d.value), st.pending)
    ensures Extends(st, r, Some(h))
  {
    match d
    case Unresolved(key) => DState(st.objects, st.pending + [Single(key, Assign(h, e))])
    case Plain(x) => DState(Performed(st.objects, h, e, x), st.pending)
  }

  /**
   * The specification of deserializeValue. Fuel stands for the depth of the
   * source's recursion; running out of it is a stack overflow.
   */
  function Decode(sreg: ServiceRegistry, logContext: string, warpKey: WarpKey, v: Value, st: DState, fuel: nat):
    (r: Result<(Decoded, DState)>)
    reads sreg, sreg.classes
    ensures r.Ok? ==> Extends(st, r.value.1, None)
    ensures r.Ok? && r.value.0.Unresolved? ==> r.value.1 == st
    ensures fuel > 0 && logContext != "" && v.DataReferenceValue? ==>
      (r.Ok? <==> v.primaryKey != "" && v.classId != 0) &&
      (r.Ok? ==> r.value == (Unresolved(DataKey(ClassKey(warpKey, v.classId), v.primaryKey)), st))
    decreases fuel, 0, 0
  {
    if fuel == 0 then Err(StackOverflow)
    else if logContext == "" then Err(Falsy("logContext"))
    else if IsContainer(v) then
      var h := |st.objects|;
      var st1 := DState(st.objects + [EmptyOf(v)], st.pending);
      match DecodeItems(sreg, logContext, warpKey, ItemsOf(v), h, st1, fuel - 1)
      case Err(e) => Err(e)
      case Ok(st2) => Ok((Plain(Ref(h)), st2))
    else
      match v
      case NoValue => Err(InvalidValueType)
      case UndefinedValue => Ok((Plain(Undefined), st))
      case NullValue => Ok((Plain(Null), st))
      case BooleanValue(b) => Ok((Plain(Bool(b)), st))
      case NumberValue(n) => Ok((Plain(Number(n)), st))
      case StringValue(s) => Ok((Plain(Str(s)), st))
      case DateValue(time) => Ok((Plain(Ref(|st.objects|)), DState(st.objects + [DateObj(time)], st.pending)))
      case DataReferenceValue(classId, pk) =>
        if pk == "" then Err(EmptyPrimaryKey)
        else
          (match NewClassKey(warpKey, classId)
           case Err(e) => Err(e)
           case Ok(classKey) => Ok((Unresolved(DataKey(classKey, pk)), st)))
      case ServiceReferenceValue(classId, pk) =>
        if pk == "" then Err(EmptyPrimaryKey)
        else
          (match NewClassKey(warpKey, classId)
           case Err(e) => Err(e)
           case Ok(classKey) =>
             (match sreg.GetCtor(classKey)
              case Err(e) => Err(e)
              case Ok(ctor) => Ok((Plain(Ref(|st.objects|)), DState(st.objects + [ServiceObj(ctor, pk)], st.pending)))))
  }

  /** The items of container `h`, read in order. */
  function DecodeItems(sreg: ServiceRegistry, logContext: string, warpKey: WarpKey, items: seq<Item>, h: Handle, st: DState, fuel: nat):
    (r: Result<DState>)
    reads sreg, sreg.classes
    ensures r.Ok? ==> Extends(st, r.value, Some(h))
    decreases fuel, |items|, 0
  {
    if |items| == 0 then Ok(st)
    else
      match DecodeItems(sreg, logContext, warpKey, items[..|items| - 1], h, st, fuel)
      case Err(e) => Err(e)
      case Ok(st1) =>
        var r := DecodeItem(sreg, logContext, warpKey, items[|items| - 1], h, st1, fuel);
        if r.Ok? then ExtendsTrans(st, st1, r.value, Some(h)); r else r
  }

  /**
   * One item: a property needs a name and a value, an element or entry its
   * value (and an entry its key); a map entry whose key and value are both
   * references waits for both with a single resolution item.
   */
  function DecodeItem(sreg: ServiceRegistry, logContext: string, warpKey: WarpKey, item: Item, h: Handle, st: DState, fuel: nat):
    (r: Result<DState>)
    reads sreg, sreg.classes
    ensures r.Ok? ==> Extends(st, r.value, Some(h))
    ensures item.EntryItem? && fuel > 0 && logContext != "" &&
            item.entry.key.Some? && item.entry.key.value.DataReferenceValue? &&
            item.entry.value.Some? && item.entry.value.value.DataReferenceValue? ==>
      var k, x := item.entry.key.value, item.entry.value.value;
      (r.Ok? <==> k.primaryKey != "" && k.classId != 0 && x.primaryKey != "" && x.classId != 0) &&
      (r.Ok? ==> r.value == DState(st.objects, st.pending + [Multi(
        [DataKey(ClassKey(warpKey, k.classId), k.primaryKey), DataKey(ClassKey(warpKey, x.classId), x.primaryKey)],
        AssignPair(h))]))
    decreases fuel, 0, 2
  {
    match item
    case PropertyItem(p) =>
      if p.name == "" || p.value.None? then Err(InvalidData)
      else
        (match Decode(sreg, logContext, warpKey, p.value.value, st, fuel)
         case Err(e) => Err(e)
         case Ok(d) => Ok(Landed(st, d, h, AssignProperty(p.name))))
    case ElementItem(e) =>
      if e.value.None? then Err(InvalidData)
      else
        (match Decode(sreg, logContext, warpKey, e.value.value, st, fuel)
         case Err(err) => Err(err)
         case Ok(d) => Ok(Landed(st, d, h, AssignItem(e.index))))
    case MemberItem(m) =>
      (match Decode(sreg, logContext, warpKey, m, st, fuel)
       case Err(e) => Err(e)
       case Ok(d) => Ok(Landed(st, d, h, AddMember)))
    case EntryItem(m) => DecodeEntry(sreg, logContext, warpKey, m, h, st, fuel)
  }

  /**
   * A map entry: a key and a value, each decoded in turn; an entry whose key
   * and value are both references waits for both with one resolution.
   */
  function DecodeEntry(sreg: ServiceRegistry, logContext: string, warpKey: WarpKey, m: MapItem, h: Handle, st: DState, fuel: nat):
    (r: Result<DState>)
    reads sreg, sreg.classes
    ensures r.Ok? ==> Extends(st, r.value, Some(h))
    ensures fuel > 0 && logContext != "" &&
            m.key.Some? && m.key.value.DataReferenceValue? && m.value.Some? && m.value.value.DataReferenceValue? ==>
      var k, x := m.key.value, m.value.value;
      (r.Ok? <==> k.primaryKey != "" && k.classId != 0 && x.primaryKey != "" && x.classId != 0) &&
      (r.Ok? ==> r == Ok(DState(st.objects, st.pending + [Multi(
        [DataKey(ClassKey(warpKey, k.classId), k.primaryKey), DataKey(ClassKey(warpKey, x.classId), x.primaryKey)],
        AssignPair(h))])))
    decreases fuel, 0, 1
  {
    if m.key.None? || m.value.None? then Err(InvalidData)
    else
      (match Decode(sreg, logContext, warpKey, m.key.value, st, fuel)
       case Err(e) => Err(e)
       case Ok(k) =>
         (match Decode(sreg, logContext, warpKey, m.value.value, k.1, fuel)
          case Err(e) => Err(e)
          case Ok(x) =>
            ExtendsTrans(st, k.1, x.1, None);
            ExtendsWiden(st, x.1, h);
            var r := PlaceEntry(k.0, x.0, h, x.1);
            ExtendsTrans(st, x.1, r, Some(h));
            Ok(r)))
  }

  /** A decoded value placed into `h`, seen from the state before it was decoded. */
  function Landed(st: DState, d: (Decoded, DState), h: Handle, e: Effect): (r: DState)
    requires Extends(st, d.1, None)
    ensures r == Place(d.0, h, e, d.1)
    ensures Extends(st, r, Some(h))
  {
    ExtendsWiden(st, d.1, h);
    ExtendsTrans(st, d.1, Place(d.0, h, e, d.1), Some(h));
    Place(d.0, h, e, d.1)
  }

  /** Where a decoded key and value land in map `h`. */
  function PlaceEntry(k: Decoded, x: Decoded, h: Handle, st: DState): (r: DState)
    ensures Extends(st, r, Some(h))
    ensures k.Unresolved? && x.Unresolved? ==> r == DState(st.objects, st.pending + [Multi([k.key, x.key], AssignPair(h))])
  {
    if k.Unresolved? && x.Unresolved? then
      DState(st.objects, st.pending + [Multi([k.key, x.key], AssignPair(h))])
    else if k.Unresolved? then
      Place(k, h, MapKeyOf(x.value), st)
    else if x.Unresolved? then
      Place(x, h, MapValueOf(k.value), st)
    else
      Place(x, h, MapValueOf(k.value), st)
  }

  /** A step that touches no old object also touches none but `h`. */
  lemma ExtendsWiden(st: DState, st2: DState, h: Handle)
    requires Extends(st, st2, None)
    ensures Extends(st, st2, Some(h))
  {
  }

  lemma {:induction false} DecodeItemsPrefixErr(sreg: ServiceRegistry, logContext: string, warpKey: WarpKey, items: seq<Item>, h: Handle, st: DState, fuel: nat, i: nat)
    requires i <= |items| && DecodeItems(sreg, logContext, warpKey, items[..i], h, st, fuel).Err?
    ensures DecodeItems(sreg, logContext, warpKey, items, h, st, fuel) == DecodeItems(sreg, logContext, warpKey, items[..i], h, st, fuel)
    decreases |items|
  {
    if i < |items| {
      var n := |items| - 1;
      assert items[..n][..i] == items[..i];
      DecodeItemsPrefixErr(sreg, logContext, warpKey, items[..n], h, st, fuel, i);
    } else {
      assert items[..i] == items;
    }
  }

  // ---------------------------------------------------------------------
  // The source's recursive method and its loop.

  /** deserializeValue, allocating in the heap and enqueueing on the tracker. */
  method DeserializeValue(heap: Heap, tracker: Tracker, sreg: ServiceRegistry, logContext: string, warpKey: WarpKey, v: Value, fuel: nat)
    returns (r: Result<Decoded>)
    modifies heap, tracker
    ensures var d := Decode(sreg, logContext, warpKey, v, DState(old(heap.objects), old(tracker.resolution)), fuel);
      (r.Ok? <==> d.Ok?) && (r.Err? ==> r.error == d.error) &&
      (r.Ok? ==> r.value == d.value.0 && heap.objects == d.value.1.objects && tracker.resolution == d.value.1.pending)
    ensures KeepsData(old(heap.objects), heap.objects)
    ensures heap.trace == old(heap.trace)
    ensures tracker.messages == old(tracker.messages) && tracker.updates == old(tracker.updates) && tracker.deletes == old(tracker.deletes)
    decreases fuel, 0, 0
  {
    if fuel == 0 {
      return Err(StackOverflow);
    }
    if logContext == "" {
      return Err(Falsy("logContext"));
    }
    if IsContainer(v) {
      var h := heap.Alloc(EmptyOf(v));
      var done := DeserializeItems(heap, tracker, sreg, logContext, warpKey, ItemsOf(v), h, fuel - 1);
      if done.Fail? {
        return Err(done.error);
      }
      return Ok(Plain(Ref(h)));
    }
    match v {
      case NoValue =>
        r := Err(InvalidValueType);
      case UndefinedValue =>
        r := Ok(Plain(Undefined));
      case NullValue =>
        r := Ok(Plain(Null));
      case BooleanValue(b) =>
        r := Ok(Plain(Bool(b)));
      case NumberValue(n) =>
        r := Ok(Plain(Number(n)));
      case StringValue(s) =>
        r := Ok(Plain(Str(s)));
      case DateValue(time) =>
        var h := heap.Alloc(DateObj(time));
        r := Ok(Plain(Ref(h)));
      case DataReferenceValue(_, _) =>
        r := DeserializeReference(heap, tracker, sreg, logContext, warpKey, v, fuel);
      case ServiceReferenceValue(_, _) =>
        r := DeserializeReference(heap, tracker, sreg, logContext, warpKey, v, fuel);
    }
  }

  /**
   * A Data reference becomes the key it names, left for resolution; a
   * Service reference becomes a fresh proxy of its registered class.
   */
  method DeserializeReference(heap: Heap, tracker: Tracker, sreg: ServiceRegistry, logContext: string, warpKey: WarpKey, v: Value, fuel: nat)
    returns (r: Result<Decoded>)
    requires fuel > 0 && logContext != "" && (v.DataReferenceValue? || v.ServiceReferenceValue?)
    modifies heap
    ensures var d := Decode(sreg, logContext, warpKey, v, DState(old(heap.objects), tracker.resolution), fuel);
      (r.Ok? <==> d.Ok?) && (r.Err? ==> r.error == d.error) &&
      (r.Ok? ==> r.value == d.value.0 && heap.objects == d.value.1.objects && tracker.resolution == d.value.1.pending)
    ensures KeepsData(old(heap.objects), heap.objects)
    ensures heap.trace == old(heap.trace)
  {
    if v.primaryKey == "" {
      return Err(EmptyPrimaryKey);
    }
    var classKey := NewClassKey(warpKey, v.classId);
    if classKey.Err? {
      return Err(classKey.error);
    }
    if v.DataReferenceValue? {
      return Ok(Unresolved(DataKey(classKey.value, v.primaryKey)));
    }
    var made := sreg.CreateInstance(heap, ServiceKey(classKey.value, v.primaryKey));
    if made.Err? {
      return Err(made.error);
    }
    r := Ok(Plain(Ref(made.value)));
  }

  /** The loop over a container's items. */
  method DeserializeItems(heap: Heap, tracker: Tracker, sreg: ServiceRegistry, logContext: string, warpKey: WarpKey,
                          items: seq<Item>, h: Handle, fuel: nat) returns (r: Outcome)
    modifies heap, tracker
    ensures var d := DecodeItems(sreg, logContext, warpKey, items, h, DState(old(heap.objects), old(tracker.resolution)), fuel);
      (r.Pass? <==> d.Ok?) && (r.Fail? ==> r.error == d.error) &&
      (r.Pass? ==> heap.objects == d.value.objects && tracker.resolution == d.value.pending)
    ensures KeepsData(old(heap.objects), heap.objects)
    ensures heap.trace == old(heap.trace)
    ensures tracker.messages == old(tracker.messages) && tracker.updates == old(tracker.updates) && tracker.deletes == old(tracker.deletes)
    decreases fuel, |items|, 1
  {
    ghost var st0 := DState(heap.objects, tracker.resolution);
    for i := 0 to |items|
      invariant DecodeItems(sreg, logContext, warpKey, items[..i], h, st0, fuel) == Ok(DState(heap.objects, tracker.resolution))
      invariant heap.trace == old(heap.trace)
      invariant KeepsData(old(heap.objects), heap.objects)
      invariant tracker.messages == old(tracker.messages) && tracker.updates == old(tracker.updates) && tracker.deletes == old(tracker.deletes)
    {
      ghost var objects := heap.objects;
      var done := DeserializeNext(heap, tracker, sreg, logContext, warpKey, items, i, h, fuel, st0);
      KeepsDataTrans(old(heap.objects), objects, heap.objects);
      if done.Fail? {
        return done;
      }
    }
    assert items[..|items|] == items;
    r := Pass;
  }

  /** Item i of the loop, read after the items before it. */
  method DeserializeNext(heap: Heap, tracker: Tracker, sreg: ServiceRegistry, logContext: string, warpKey: WarpKey,
                         items: seq<Item>, i: nat, h: Handle, fuel: nat, ghost st0: DState) returns (r: Outcome)
    requires i < |items|
    requires DecodeItems(sreg, logContext, warpKey, items[..i], h, st0, fuel) == Ok(DState(heap.objects, tracker.resolution))
    modifies heap, tracker
    ensures r.Pass? ==> DecodeItems(sreg, logContext, warpKey, items[..i + 1], h, st0, fuel) == Ok(DState(heap.objects, tracker.resolution))
    ensures r.Fail? ==> DecodeItems(sreg, logContext, warpKey, items, h, st0, fuel) == Err(r.error)
    ensures KeepsData(old(heap.objects), heap.objects)
    ensures heap.trace == old(heap.trace)
    ensures tracker.messages == old(tracker.messages) && tracker.updates == old(tracker.updates) && tracker.deletes == old(tracker.deletes)
    decreases fuel, |items|, 0
  {
    DecodeItemsNext(sreg, logContext, warpKey, items, h, st0, fuel, i, DState(heap.objects, tracker.resolution));
    r := DeserializeItem(heap, tracker, sreg, logContext, warpKey, items[i], h, fuel);
    if r.Fail? {
      DecodeItemsPrefixErr(sreg, logContext, warpKey, items, h, st0, fuel, i + 1);
    }
  }

  /** Stores a decoded value into a container, or enqueues its resolution. */
  method PlaceInto(heap: Heap, tracker: Tracker, d: Decoded, h: Handle, e: Effect)
    modifies heap, tracker
    ensures var st := Place(d, h, e, DState(old(heap.objects), old(tracker.resolution)));
      heap.objects == st.objects && tracker.resolution == st.pending
    ensures KeepsData(old(heap.objects), heap.objects)
    ensures heap.trace == old(heap.trace)
    ensures tracker.messages == old(tracker.messages) && tracker.updates == old(tracker.updates) && tracker.deletes == old(tracker.deletes)
  {
    if d.Unresolved? {
      tracker.Enqueue(d.key, Assign(h, e));
    } else {
      heap.Perform(h, e, d.value);
    }
  }

  /** The body of the loop for one item. */
  method DeserializeItem(heap: Heap, tracker: Tracker, sreg: ServiceRegistry, logContext: string, warpKey: WarpKey,
                         item: Item, h: Handle, fuel: nat) returns (r: Outcome)
    modifies heap, tracker
    ensures var d := DecodeItem(sreg, logContext, warpKey, item, h, DState(old(heap.objects), old(tracker.resolution)), fuel);
      (r.Pass? <==> d.Ok?) && (r.Fail? ==> r.error == d.error) &&
      (r.Pass? ==> heap.objects == d.value.objects && tracker.resolution == d.value.pending)
    ensures KeepsData(old(heap.objects), heap.objects)
    ensures heap.trace == old(heap.trace)
    ensures tracker.messages == old(tracker.messages) && tracker.updates == old(tracker.updates) && tracker.deletes == old(tracker.deletes)
    decreases fuel, 0, 2
  {
    match item {
      case PropertyItem(p) =>
        if p.name == "" || p.value.None? {
          return Fail(InvalidData);
        }
        var d := DeserializeValue(heap, tracker, sreg, logContext, warpKey, p.value.value, fuel);
        if d.Err? {
          return Fail(d.error);
        }
        PlaceInto(heap, tracker, d.value, h, AssignProperty(p.name));
      case ElementItem(e) =>
        if e.value.None? {
          return Fail(InvalidData);
        }
        var d := DeserializeValue(heap, tracker, sreg, logContext, warpKey, e.value.value, fuel);
        if d.Err? {
          return Fail(d.error);
        }
        PlaceInto(heap, tracker, d.value, h, AssignItem(e.index));
      case MemberItem(m) =>
        var d := DeserializeValue(heap, tracker, sreg, logContext, warpKey, m, fuel);
        if d.Err? {
          return Fail(d.error);
        }
        PlaceInto(heap, tracker, d.value, h, AddMember);
      case EntryItem(m) =>
        var done := DeserializeEntry(heap, tracker, sreg, logContext, warpKey, m, h, fuel);
        if done.Fail? {
          return done;
        }
    }
    r := Pass;
  }

  /** A map entry: its key, then its value, then where the two land. */
  method DeserializeEntry(heap: Heap, tracker: Tracker, sreg: ServiceRegistry, logContext: string, warpKey: WarpKey,
                          m: MapItem, h: Handle, fuel: nat) returns (r: Outcome)
    modifies heap, tracker
    ensures var d := DecodeEntry(sreg, logContext, warpKey, m, h, DState(old(heap.objects), old(tracker.resolution)), fuel);
      (r.Pass? <==> d.Ok?) && (r.Fail? ==> r.error == d.error) &&
      (r.Pass? ==> heap.objects == d.value.objects && tracker.resolution == d.value.pending)
    ensures KeepsData(old(heap.objects), heap.objects)
    ensures heap.trace == old(heap.trace)
    ensures tracker.messages == old(tracker.messages) && tracker.updates == old(tracker.updates) && tracker.deletes == old(tracker.deletes)
    decreases fuel, 0, 1
  {
    if m.key.None? || m.value.None? {
      return Fail(InvalidData);
    }
    var k := DeserializeValue(heap, tracker, sreg, logContext, warpKey, m.key.value, fuel);
    if k.Err? {
      return Fail(k.error);
    }
    var x := DeserializeValue(heap, tracker, sreg, logContext, warpKey, m.value.value, fuel);
    if x.Err? {
      return Fail(x.error);
    }
    if k.value.Unresolved? && x.value.Unresolved? {
      var queued := tracker.EnqueueMultiple([k.value.key, x.value.key], AssignPair(h));
    } else if k.value.Unresolved? {
      PlaceInto(heap, tracker, k.value, h, MapKeyOf(x.value.value));
    } else {
      PlaceInto(heap, tracker, x.value, h, MapValueOf(k.value.value));
    }
    r := Pass;
  }

  // ---------------------------------------------------------------------
  // Round trip: an array of primitives encoded by serializeValue and read
  // back by deserializeValue is a fresh array of the same values, holes
  // read back as undefined.

  /** A value that is neither an object nor a refused kind. */
  predicate Primitive(x: Native)
  {
    x.Undefined? || x.Null? || x.Bool? || x.Number? || x.Str?
  }

  /** The encoding of a primitive. */
  function PrimitiveValue(x: Native): (w: Value)
    requires Primitive(x)
    ensures TagOf(w).Some?
  {
    match x
    case Undefined => UndefinedValue
    case Null => NullValue
    case Bool(b) => BooleanValue(b)
    case Number(n) => NumberValue(n)
    case Str(s) => StringValue(s)
  }

  /** The encodings of some primitives, in order. */
  function Encoded(xs: seq<Native>): (ws: seq<Value>)
    requires forall i :: 0 <= i < |xs| ==> Primitive(xs[i])
    ensures |ws| == |xs|
    ensures forall i :: 0 <= i < |xs| ==> ws[i] == PrimitiveValue(xs[i])
  {
    seq(|xs|, i requires 0 <= i < |xs| => PrimitiveValue(xs[i]))
  }

  /** Some values as array slots, all filled. */
  function Slots(xs: seq<Native>): (items: seq<Option<Native>>)
    ensures |items| == |xs|
    ensures forall i :: 0 <= i < |xs| ==> items[i] == Some(xs[i])
  {
    seq(|xs|, i requires 0 <= i < |xs| => Some(xs[i]))
  }

  /** Primitives are encoded one by one and leave the transfer queue alone. */
  lemma {:induction false} SerializePrimitives(env: Env, xs: seq<Native>, t: Transfer, fuel: nat)
    requires fuel > 0 && forall i :: 0 <= i < |xs| ==> Primitive(xs[i])
    ensures SerializeList(env, xs, t, fuel) == Ok((Encoded(xs), t))
    decreases |xs|
  {
    if |xs| > 0 {
      var n := |xs| - 1;
      SerializePrimitives(env, xs[..n], t, fuel);
      assert SerializeValue(env, xs[n], t, fuel) == Ok((PrimitiveValue(xs[n]), t));
      assert Encoded(xs[..n]) + [PrimitiveValue(xs[n])] == Encoded(xs);
    }
  }

  /** A primitive is read back as itself, with nothing allocated or enqueued. */
  lemma DecodePrimitive(sreg: ServiceRegistry, logContext: string, warpKey: WarpKey, x: Native, st: DState, fuel: nat)
    requires Primitive(x) && fuel > 0 && logContext != ""
    ensures Decode(sreg, logContext, warpKey, PrimitiveValue(x), st, fuel) == Ok((Plain(x), st))
  {
  }

  /** Reading a list of items reads the last one into the state the others leave. */
  lemma DecodeItemsLast(sreg: ServiceRegistry, logContext: string, warpKey: WarpKey, items: seq<Item>, h: Handle,
                        st: DState, fuel: nat, st1: DState)
    requires |items| > 0
    requires DecodeItems(sreg, logContext, warpKey, items[..|items| - 1], h, st, fuel) == Ok(st1)
    ensures DecodeItems(sreg, logContext, warpKey, items, h, st, fuel) ==
      DecodeItem(sreg, logContext, warpKey, items[|items| - 1], h, st1, fuel)
  {
  }

  /** Reading one more item continues from the state the items before it left. */
  lemma DecodeItemsNext(sreg: ServiceRegistry, logContext: string, warpKey: WarpKey, items: seq<Item>, h: Handle,
                        st: DState, fuel: nat, i: nat, st1: DState)
    requires i < |items|
    requires DecodeItems(sreg, logContext, warpKey, items[..i], h, st, fuel) == Ok(st1)
    ensures DecodeItems(sreg, logContext, warpKey, items[..i + 1], h, st, fuel) ==
      DecodeItem(sreg, logContext, warpKey, items[i], h, st1, fuel)
  {
    assert items[..i + 1][..i] == items[..i];
    DecodeItemsLast(sreg, logContext, warpKey, items[..i + 1], h, st, fuel, st1);
  }

  /** A named property holding a primitive is performed on the object at once. */
  lemma DecodePrimitiveProperty(sreg: ServiceRegistry, logContext: string, warpKey: WarpKey, name: string, x: Native,
                                h: Handle, st: DState, fuel: nat)
    requires Primitive(x) && fuel > 0 && logContext != "" && name != ""
    ensures DecodeItem(sreg, logContext, warpKey, PropertyItem(Property(name, Some(PrimitiveValue(x)))), h, st, fuel) ==
      Ok(DState(Performed(st.objects, h, AssignProperty(name), x), st.pending))
  {
    DecodePrimitive(sreg, logContext, warpKey, x, st, fuel);
  }

  /** The items of an encoded array of primitives. */
  function Elements(xs: seq<Native>): (items: seq<Item>)
    requires forall i :: 0 <= i < |xs| ==> Primitive(xs[i])
    ensures |items| == |xs|
    ensures forall i :: 0 <= i < |xs| ==> items[i] == ElementItem(ArrayItem(i, Some(PrimitiveValue(xs[i]))))
  {
    seq(|xs|, i requires 0 <= i < |xs| => ElementItem(ArrayItem(i, Some(PrimitiveValue(xs[i])))))
  }

  /** Reading the first n elements into an empty array stores exactly them, in order. */
  lemma {:induction false} DecodeElements(sreg: ServiceRegistry, logContext: string, warpKey: WarpKey, xs: seq<Native>,
                                          h: Handle, st: DState, fuel: nat, n: nat)
    requires forall i :: 0 <= i < |xs| ==> Primitive(xs[i])
    requires fuel > 0 && logContext != "" && n <= |xs|
    requires h < |st.objects| && st.objects[h] == ArrayObj([])
    ensures DecodeItems(sreg, logContext, warpKey, Elements(xs)[..n], h, st, fuel) ==
      Ok(DState(st.objects[h := ArrayObj(Slots(xs[..n]))], st.pending))
  {
    if n == 0 {
      assert st.objects[h := ArrayObj([])] == st.objects;
    } else {
      var m := n - 1;
      DecodeElements(sreg, logContext, warpKey, xs, h, st, fuel, m);
      assert Elements(xs)[..n][..m] == Elements(xs)[..m];
      var before := Slots(xs[..m]);
      var st1 := DState(st.objects[h := ArrayObj(before)], st.pending);
      DecodePrimitive(sreg, logContext, warpKey, xs[m], st1, fuel);
      assert AssignIndex(before, m, xs[m]) == Slots(xs[..n]);
      assert st1.objects[h := ArrayObj(AssignIndex(before, m, xs[m]))] ==
        st.objects[h := ArrayObj(Slots(xs[..n]))];
    }
  }

  /**
   * The round trip for an array of primitives: encoding it and decoding the
   * result allocates one new array holding the same values, holes becoming
   * undefined, and enqueues nothing.
   */
  lemma ArrayRoundTrip(env: Env, a: Handle, t: Transfer, fuel: nat,
                       sreg: ServiceRegistry, logContext: string, warpKey: WarpKey, st: DState, fuel2: nat)
    requires a < |env.objects| && env.objects[a].ArrayObj?
    requires forall i :: 0 <= i < |env.objects[a].items| ==> Primitive(Filled(env.objects[a].items)[i])
    requires fuel > 1 && fuel2 > 1 && logContext != ""
    ensures SerializeValue(env, Ref(a), t, fuel).Ok?
    ensures var w := SerializeValue(env, Ref(a), t, fuel).value;
      var items := env.objects[a].items;
      w.1 == t &&
      Decode(sreg, logContext, warpKey, w.0, st, fuel2) ==
        Ok((Plain(Ref(|st.objects|)),
            DState(st.objects + [ArrayObj(Slots(Filled(items)))], st.pending)))
  {
    var xs := Filled(env.objects[a].items);
    SerializePrimitives(env, xs, t, fuel - 1);
    var w := ArrayValue(Indexed(Encoded(xs)));
    assert SerializeContainer(env, a, t, fuel) == Ok((w, t));
    assert SerializeValue(env, Ref(a), t, fuel) == Ok((w, t));
    assert ItemsOf(w) == Elements(xs);
    var h := |st.objects|;
    var st1 := DState(st.objects + [ArrayObj([])], st.pending);
    DecodeElements(sreg, logContext, warpKey, xs, h, st1, fuel2 - 1, |xs|);
    assert Elements(xs)[..|xs|] == Elements(xs);
    assert xs[..|xs|] == xs;
    assert st1.objects[h := ArrayObj(Slots(xs))] == st.objects + [ArrayObj(Slots(xs))];
  }

  /**
   * The round trip for a Data object: its reference, read back in the warp
   * it belongs to, names the same key, and decoding allocates and enqueues
   * nothing.
   */
  lemma DataReferenceRoundTrip(env: Env, h: Handle, t: Transfer, fuel: nat,
                               sreg: ServiceRegistry, logContext: string, st: DState, fuel2: nat)
    requires Queueable(env, h) && TransferAdd(env, t, h).Ok?
    requires KeyOf(env, h).classKey.classId != 0
    requires fuel > 0 && fuel2 > 0 && logContext != ""
    ensures SerializeValue(env, Ref(h), t, fuel).Ok?
    ensures Decode(sreg, logContext, KeyOf(env, h).classKey.warpKey, SerializeValue(env, Ref(h), t, fuel).value.0, st, fuel2) ==
      Ok((Unresolved(KeyOf(env, h)), st))
  {
  }
}
