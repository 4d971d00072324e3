/**
 * The outbound half of the value codec: classifying a JavaScript value,
 * encoding it as a tagged value tree, and the transfer queue that collects,
 * once each, the Data objects a request refers to so that their state can
 * travel with the request.
 */
module Codec {
  import opened Wrappers
  import opened Unsigned
  import opened Keys
  import opened JsHeap
  import opened Wire

  /** getValueType's answer: the union member, and whether a boxed primitive must be unwrapped first. */
  datatype TypeInfo = TypeInfo(unwrap: bool, tag: ValueTag)

  /**
   * getValueType. Primitives map to their own member, null to Null;
   * objects are classified as Date, Data, Service, Message (refused), Array,
   * Map, Set, then the boxed String, Number and Boolean (which unwrap);
   * any other object is a plain Object. Functions, symbols and big
   * integers are refused.
   */
  function GetValueType(objects: seq<Obj>, v: Native): (r: Result<TypeInfo>)
    ensures v.BigInt? || v.Symbol? || v.Function? ==> r == Err(UnsupportedValueType)
    ensures v.Ref? && v.h < |objects| && objects[v.h].MessageObj? ==> r == Err(MessageNotSerializable)
    ensures r.Ok? ==> !v.Ref? || (v.h < |objects| && !objects[v.h].MessageObj?)
    ensures r.Ok? && r.value.unwrap <==>
      r.Ok? && v.Ref? && (objects[v.h].BoxedString? || objects[v.h].BoxedNumber? || objects[v.h].BoxedBoolean?)
    ensures r.Ok? && r.value.tag == DataReferenceTag <==> v.Ref? && v.h < |objects| && objects[v.h].DataObj?
    ensures r.Ok? && r.value.tag == ServiceReferenceTag <==> v.Ref? && v.h < |objects| && objects[v.h].ServiceObj?
    ensures r.Ok? && r.value.tag == StringTag <==> v.Str? || (v.Ref? && v.h < |objects| && objects[v.h].BoxedString?)
    ensures r.Ok? && r.value.tag == ObjectTag <==>
      v.Ref? && v.h < |objects| && (objects[v.h].PlainObj? || objects[v.h].LocalCell?)
    ensures r.Ok? <==> !(v.BigInt? || v.Symbol? || v.Function?) && (v.Ref? ==> v.h < |objects| && !objects[v.h].MessageObj?)
  {
    match v
    case Null => Ok(TypeInfo(false, NullTag))
    case Undefined => Ok(TypeInfo(false, UndefinedTag))
    case Bool(_) => Ok(TypeInfo(false, BooleanTag))
    case Number(_) => Ok(TypeInfo(false, NumberTag))
    case Str(_) => Ok(TypeInfo(false, StringTag))
    case BigInt(_) => Err(UnsupportedValueType)
    case Symbol(_) => Err(UnsupportedValueType)
    case Function(_) => Err(UnsupportedValueType)
    case Ref(h) =>
      if h >= |objects| then Err(UnsupportedValueType)
      else
        match objects[h]
        case DateObj(_) => Ok(TypeInfo(false, DateTag))
        case DataObj(_, _, _) => Ok(TypeInfo(false, DataReferenceTag))
        case ServiceObj(_, _) => Ok(TypeInfo(false, ServiceReferenceTag))
        case MessageObj(_, _) => Err(MessageNotSerializable)
        case ArrayObj(_) => Ok(TypeInfo(false, ArrayTag))
        case MapObj(_) => Ok(TypeInfo(false, MapTag))
        case SetObj(_) => Ok(TypeInfo(false, SetTag))
        case BoxedString(_) => Ok(TypeInfo(true, StringTag))
        case BoxedNumber(_) => Ok(TypeInfo(true, NumberTag))
        case BoxedBoolean(_) => Ok(TypeInfo(true, BooleanTag))
        case PlainObj(_) => Ok(TypeInfo(false, ObjectTag))
        case LocalCell(_) => Ok(TypeInfo(false, ObjectTag))
  }

  /** The union member an object is written as, once the type test has accepted it. */
  function WrittenTag(o: Obj): ValueTag
  {
    match o
    case DataObj(_, _, _) => DataReferenceTag
    case ServiceObj(_, _) => ServiceReferenceTag
    case MessageObj(_, _) => ObjectTag
    case PlainObj(_) => ObjectTag
    case LocalCell(_) => ObjectTag
    case ArrayObj(_) => ArrayTag
    case MapObj(_) => MapTag
    case SetObj(_) => SetTag
    case DateObj(_) => DateTag
    case BoxedString(_) => StringTag
    case BoxedNumber(_) => NumberTag
    case BoxedBoolean(_) => BooleanTag
  }

  /** The type test gives every object it accepts that member. */
  lemma ObjectTypeTag(objects: seq<Obj>, h: Handle)
    requires GetValueType(objects, Ref(h)).Ok?
    ensures GetValueType(objects, Ref(h)).value.tag == WrittenTag(objects[h])
  {
  }

  // ---------------------------------------------------------------------
  // The transfer queue.

  /**
   * What encoding reads: the objects, and the class key of every registered
   * Data and Service constructor.
   */
  datatype Env = Env(objects: seq<Obj>, dataClasses: map<Ctor, ClassKey>, serviceClasses: map<Ctor, ClassKey>)

  /**
   * The state of a DataTransferQueue: the Data objects still to be sent, the
   * keys of every object ever added, and the warp they all belong to. The
   * source keeps the keys in a KeySet indexed by their value strings, which
   * are injective (Keys.DataKeyValueInjective), so a set of keys is the same.
   */
  datatype Transfer = Transfer(queue: seq<Handle>, keys: set<DataKey>, warpKey: Option<WarpKey>)

  /** A Data object whose key can be built: registered class, non-empty primary key. */
  predicate Queueable(env: Env, h: Handle)
  {
    h < |env.objects| && env.objects[h].DataObj? &&
    env.objects[h].ctor in env.dataClasses && env.objects[h].primaryKey != ""
  }

  /** The key of a queueable Data object. */
  function KeyOf(env: Env, h: Handle): DataKey
    requires Queueable(env, h)
  {
    DataKey(env.dataClasses[env.objects[h].ctor], env.objects[h].primaryKey)
  }

  /**
   * tryAdd: a key seen before is ignored; a new one joins the queue and
   * fixes the warp, and one of another warp fails.
   */
  function TransferAdd(env: Env, t: Transfer, h: Handle): (r: Result<(Option<DataKey>, Transfer)>)
    ensures r.Ok? <==>
      Queueable(env, h) && (KeyOf(env, h) in t.keys || t.warpKey.None? || t.warpKey.value == KeyOf(env, h).classKey.warpKey)
    ensures r.Ok? && KeyOf(env, h) in t.keys ==> r.value == (None, t)
    ensures r.Ok? && KeyOf(env, h) !in t.keys ==>
      r.value == (Some(KeyOf(env, h)), Transfer(t.queue + [h], t.keys + {KeyOf(env, h)}, Some(KeyOf(env, h).classKey.warpKey)))
    ensures r.Err? && Queueable(env, h) ==> r.error == DifferentWarps
  {
    if !(h < |env.objects| && env.objects[h].DataObj?) then Err(NotRegistered)
    else if env.objects[h].ctor !in env.dataClasses then Err(NotRegistered)
    else if env.objects[h].primaryKey == "" then Err(Falsy("primaryKey"))
    else
      var key := KeyOf(env, h);
      if key in t.keys then Ok((None, t))
      else if t.warpKey.Some? && t.warpKey.value != key.classKey.warpKey then Err(DifferentWarps)
      else Ok((Some(key), Transfer(t.queue + [h], t.keys + {key}, Some(key.classKey.warpKey))))
  }

  /** The keys of some queueable objects. */
  function KeysOf(env: Env, hs: seq<Handle>): set<DataKey>
    requires forall h :: h in hs ==> Queueable(env, h)
  {
    set h | h in hs :: KeyOf(env, h)
  }

  /** No two of the handles carry the same key. */
  predicate DistinctKeys(env: Env, hs: seq<Handle>)
    requires forall h :: h in hs ==> Queueable(env, h)
  {
    forall i, j :: 0 <= i < j < |hs| ==> KeyOf(env, hs[i]) != KeyOf(env, hs[j])
  }

  /**
   * The queue's invariant, given the objects popped so far: every object
   * ever added was added once, its key is recorded, and all of them belong
   * to the queue's warp.
   */
  predicate TransferInv(env: Env, t: Transfer, popped: seq<Handle>)
  {
    var added := popped + t.queue;
    (forall h :: h in added ==> Queueable(env, h)) &&
    DistinctKeys(env, added) &&
    t.keys == KeysOf(env, added) &&
    (|added| > 0 ==> t.warpKey.Some?) &&
    (forall h :: h in added ==> KeyOf(env, h).classKey.warpKey == t.warpKey.value)
  }

  /** tryAdd keeps the invariant, whether it queues the object or not. */
  lemma TransferAddKeepsInv(env: Env, t: Transfer, h: Handle, popped: seq<Handle>)
    requires TransferInv(env, t, popped)
    requires TransferAdd(env, t, h).Ok?
    ensures TransferInv(env, TransferAdd(env, t, h).value.1, popped)
    ensures KeyOf(env, h) in TransferAdd(env, t, h).value.1.keys
  {
    var key := KeyOf(env, h);
    if key !in t.keys {
      var t' := TransferAdd(env, t, h).value.1;
      var added := popped + t.queue;
      assert popped + t'.queue == added + [h];
      forall i, j | 0 <= i < j < |added + [h]|
        ensures KeyOf(env, (added + [h])[i]) != KeyOf(env, (added + [h])[j])
      {
        if j == |added| {
          assert (added + [h])[i] in added;
        }
      }
      assert KeysOf(env, added + [h]) == KeysOf(env, added) + {key};
    }
  }

  // ---------------------------------------------------------------------
  // Encoding.

  /** The values of an array, a hole read as undefined (as `for ... of` does). */
  function Filled(items: seq<Option<Native>>): (vs: seq<Native>)
    ensures |vs| == |items|
    ensures forall i :: 0 <= i < |items| ==> vs[i] == (if items[i].Some? then items[i].value else Undefined)
  {
    seq(|items|, i requires 0 <= i < |items| => if items[i].Some? then items[i].value else Undefined)
  }

  /** Array items carrying the consecutive indices 0 .. n-1. */
  function Indexed(vals: seq<Value>): (items: seq<ArrayItem>)
    ensures |items| == |vals|
    ensures forall i :: 0 <= i < |vals| ==> items[i] == ArrayItem(i, Some(vals[i]))
  {
    seq(|vals|, i requires 0 <= i < |vals| => ArrayItem(i, Some(vals[i])))
  }

  /** The property values of an object, in property order. */
  function PropValues(props: Props): (vs: seq<Native>)
    ensures |vs| == |props|
    ensures forall i :: 0 <= i < |props| ==> vs[i] == props[i].1
  {
    seq(|props|, i requires 0 <= i < |props| => props[i].1)
  }

  /** Encoded properties under their names. */
  function Named(props: Props, vals: seq<Value>): (ps: seq<Property>)
    requires |vals| == |props|
    ensures |ps| == |props|
    ensures forall i :: 0 <= i < |props| ==> ps[i] == Property(props[i].0, Some(vals[i]))
  {
    seq(|props|, i requires 0 <= i < |props| => Property(props[i].0, Some(vals[i])))
  }

  /** The entries of a map as key, value, key, value, ... in insertion order. */
  function Flattened(entries: seq<(Native, Native)>): (vs: seq<Native>)
    ensures |vs| == 2 * |entries|
    ensures forall i :: 0 <= i < |entries| ==> vs[2 * i] == entries[i].0 && vs[2 * i + 1] == entries[i].1
  {
    if |entries| == 0 then [] else [entries[0].0, entries[0].1] + Flattened(entries[1..])
  }

  /** Encoded keys and values paired back into map items. */
  function Paired(vals: seq<Value>): (items: seq<MapItem>)
    requires |vals| % 2 == 0
    ensures |items| == |vals| / 2
    ensures forall i :: 0 <= i < |items| ==> items[i] == MapItem(Some(vals[2 * i]), Some(vals[2 * i + 1]))
  {
    if |vals| == 0 then [] else [MapItem(Some(vals[0]), Some(vals[1]))] + Paired(vals[2..])
  }

  /**
   * serializeValue. `fuel` is the depth of nesting the call stack allows:
   * the source recurses without bound, so a cyclic object graph overflows
   * the stack, which running out of fuel stands for.
   */
  function SerializeValue(env: Env, v: Native, t: Transfer, fuel: nat): (r: Result<(Value, Transfer)>)
    ensures GetValueType(env.objects, v).Err? && fuel > 0 ==> r == Err(GetValueType(env.objects, v).error)
    ensures r.Ok? ==> GetValueType(env.objects, v).Ok? && TagOf(r.value.0) == Some(GetValueType(env.objects, v).value.tag)
    decreases fuel, 2
  {
    if fuel == 0 then Err(StackOverflow)
    else
      var info := GetValueType(env.objects, v);
      if info.Err? then Err(info.error)
      else
        match v
        case Undefined => Ok((UndefinedValue, t))
        case Null => Ok((NullValue, t))
        case Bool(b) => Ok((BooleanValue(b), t))
        case Number(n) => Ok((NumberValue(n), t))
        case Str(s) => Ok((StringValue(s), t))
        case Ref(h) =>
          ObjectTypeTag(env.objects, h);
          SerializeObject(env, h, t, fuel)
  }

  /**
   * serializeValue on an object the type test accepted: boxed primitives
   * unwrap, a Date keeps its time, a Data object is queued and sent by
   * reference, a Service object is sent by reference only, and the
   * containers encode their contents one level deeper.
   */
  function SerializeObject(env: Env, h: Handle, t: Transfer, fuel: nat): (r: Result<(Value, Transfer)>)
    requires fuel > 0 && GetValueType(env.objects, Ref(h)).Ok?
    ensures r.Ok? ==> TagOf(r.value.0) == Some(WrittenTag(env.objects[h]))
    decreases fuel, 1
  {
    match env.objects[h]
    case BoxedString(s) => Ok((StringValue(s), t))
    case BoxedNumber(n) => Ok((NumberValue(n), t))
    case BoxedBoolean(b) => Ok((BooleanValue(b), t))
    case DateObj(time) => Ok((DateValue(time), t))
    case DataObj(ctor, pk, _) =>
      if ctor !in env.dataClasses then Err(NotRegistered)
      else
        (match TransferAdd(env, t, h)
         case Err(e) => Err(e)
         case Ok(added) => Ok((DataReferenceValue(env.dataClasses[ctor].classId, pk), added.1)))
    case ServiceObj(ctor, pk) =>
      if ctor !in env.serviceClasses then Err(NotRegistered)
      else Ok((ServiceReferenceValue(env.serviceClasses[ctor].classId, pk), t))
    case LocalCell(_) => Ok((ObjectValue([]), t))
    case PlainObj(_) | ArrayObj(_) | MapObj(_) | SetObj(_) => SerializeContainer(env, h, t, fuel)
  }

  /** A container an object may hold other values in. */
  predicate IsContainer(o: Obj)
  {
    o.PlainObj? || o.ArrayObj? || o.MapObj? || o.SetObj?
  }

  /**
   * serializeValue on a plain object, array, map or set: the contents are
   * encoded one level deeper, a plain object's by name, an array's by
   * index, a map's as key and value pairs, a set's in order.
   */
  function SerializeContainer(env: Env, h: Handle, t: Transfer, fuel: nat): (r: Result<(Value, Transfer)>)
    requires fuel > 0 && h < |env.objects| && IsContainer(env.objects[h])
    ensures r.Ok? ==> TagOf(r.value.0) == Some(WrittenTag(env.objects[h]))
    decreases fuel, 0
  {
    match env.objects[h]
    case PlainObj(props) =>
      (match SerializeList(env, PropValues(props), t, fuel - 1)
       case Err(e) => Err(e)
       case Ok(res) => Ok((ObjectValue(Named(props, res.0)), res.1)))
    case ArrayObj(items) =>
      (match SerializeList(env, Filled(items), t, fuel - 1)
       case Err(e) => Err(e)
       case Ok(res) => Ok((ArrayValue(Indexed(res.0)), res.1)))
    case MapObj(entries) =>
      (match SerializeList(env, Flattened(entries), t, fuel - 1)
       case Err(e) => Err(e)
       case Ok(res) => Ok((MapValue(Paired(res.0)), res.1)))
    case SetObj(members) =>
      (match SerializeList(env, members, t, fuel - 1)
       case Err(e) => Err(e)
       case Ok(res) => Ok((SetValue(res.0), res.1)))
  }

  /** Values encoded one after the other, the queue threaded through in order. */
  function SerializeList(env: Env, vs: seq<Native>, t: Transfer, fuel: nat): (r: Result<(seq<Value>, Transfer)>)
    ensures r.Ok? ==> |r.value.0| == |vs|
    decreases fuel, |vs| + 2
  {
    if |vs| == 0 then Ok(([], t))
    else
      match SerializeList(env, vs[..|vs| - 1], t, fuel)
      case Err(e) => Err(e)
      case Ok(init) =>
        match SerializeValue(env, vs[|vs| - 1], init.1, fuel)
        case Err(e) => Err(e)
        case Ok(last) => Ok((init.0 + [last.0], last.1))
  }

  /** Encoding one more value extends the encoding of a prefix. */
  lemma SerializeListStep(env: Env, vs: seq<Native>, i: nat, t: Transfer, fuel: nat)
    requires i < |vs|
    ensures SerializeList(env, vs[..i + 1], t, fuel) ==
      match SerializeList(env, vs[..i], t, fuel)
      case Err(e) => Err(e)
      case Ok(init) =>
        match SerializeValue(env, vs[i], init.1, fuel)
        case Err(e) => Err(e)
        case Ok(last) => Ok((init.0 + [last.0], last.1))
  {
    assert vs[..i + 1][..i] == vs[..i];
  }

  /**
   * Encoding never takes an object out of the queue or forgets a key, and
   * keeps the queue's invariant: whatever it adds, it adds once.
   */
  lemma {:induction false} SerializeKeepsInv(env: Env, v: Native, t: Transfer, fuel: nat, popped: seq<Handle>)
    requires TransferInv(env, t, popped)
    requires SerializeValue(env, v, t, fuel).Ok?
    ensures TransferInv(env, SerializeValue(env, v, t, fuel).value.1, popped)
    ensures t.keys <= SerializeValue(env, v, t, fuel).value.1.keys
    ensures t.warpKey.Some? ==> SerializeValue(env, v, t, fuel).value.1.warpKey == t.warpKey
    ensures v.Ref? && Queueable(env, v.h) ==> KeyOf(env, v.h) in SerializeValue(env, v, t, fuel).value.1.keys
    decreases fuel, 2
  {
    if v.Ref? {
      SerializeObjectKeepsInv(env, v.h, t, fuel, popped);
    }
  }

  lemma {:induction false} SerializeObjectKeepsInv(env: Env, h: Handle, t: Transfer, fuel: nat, popped: seq<Handle>)
    requires TransferInv(env, t, popped)
    requires fuel > 0 && GetValueType(env.objects, Ref(h)).Ok?
    requires SerializeObject(env, h, t, fuel).Ok?
    ensures TransferInv(env, SerializeObject(env, h, t, fuel).value.1, popped)
    ensures t.keys <= SerializeObject(env, h, t, fuel).value.1.keys
    ensures t.warpKey.Some? ==> SerializeObject(env, h, t, fuel).value.1.warpKey == t.warpKey
    ensures Queueable(env, h) ==> KeyOf(env, h) in SerializeObject(env, h, t, fuel).value.1.keys
    decreases fuel, 1
  {
    match env.objects[h]
    case DataObj(_, _, _) => TransferAddKeepsInv(env, t, h, popped);
    case PlainObj(_) => SerializeContainerKeepsInv(env, h, t, fuel, popped);
    case ArrayObj(_) => SerializeContainerKeepsInv(env, h, t, fuel, popped);
    case MapObj(_) => SerializeContainerKeepsInv(env, h, t, fuel, popped);
    case SetObj(_) => SerializeContainerKeepsInv(env, h, t, fuel, popped);
    case _ =>
  }

  lemma {:induction false} SerializeContainerKeepsInv(env: Env, h: Handle, t: Transfer, fuel: nat, popped: seq<Handle>)
    requires TransferInv(env, t, popped)
    requires fuel > 0 && h < |env.objects| && IsContainer(env.objects[h])
    requires SerializeContainer(env, h, t, fuel).Ok?
    ensures TransferInv(env, SerializeContainer(env, h, t, fuel).value.1, popped)
    ensures t.keys <= SerializeContainer(env, h, t, fuel).value.1.keys
    ensures t.warpKey.Some? ==> SerializeContainer(env, h, t, fuel).value.1.warpKey == t.warpKey
    decreases fuel, 0
  {
    match env.objects[h]
    case PlainObj(props) => SerializeListKeepsInv(env, PropValues(props), t, fuel - 1, popped);
    case ArrayObj(items) => SerializeListKeepsInv(env, Filled(items), t, fuel - 1, popped);
    case MapObj(entries) => SerializeListKeepsInv(env, Flattened(entries), t, fuel - 1, popped);
    case SetObj(members) => SerializeListKeepsInv(env, members, t, fuel - 1, popped);
  }

  lemma {:induction false} SerializeListKeepsInv(env: Env, vs: seq<Native>, t: Transfer, fuel: nat, popped: seq<Handle>)
    requires TransferInv(env, t, popped)
    requires SerializeList(env, vs, t, fuel).Ok?
    ensures TransferInv(env, SerializeList(env, vs, t, fuel).value.1, popped)
    ensures t.keys <= SerializeList(env, vs, t, fuel).value.1.keys
    ensures t.warpKey.Some? ==> SerializeList(env, vs, t, fuel).value.1.warpKey == t.warpKey
    ensures forall i :: 0 <= i < |vs| && vs[i].Ref? && Queueable(env, vs[i].h) ==>
      KeyOf(env, vs[i].h) in SerializeList(env, vs, t, fuel).value.1.keys
    decreases fuel, |vs| + 2
  {
    if |vs| > 0 {
      var n := |vs| - 1;
      var init := SerializeList(env, vs[..n], t, fuel).value;
      SerializeListKeepsInv(env, vs[..n], t, fuel, popped);
      SerializeKeepsInv(env, vs[n], init.1, fuel, popped);
      forall i | 0 <= i < |vs| && vs[i].Ref? && Queueable(env, vs[i].h)
        ensures KeyOf(env, vs[i].h) in SerializeList(env, vs, t, fuel).value.1.keys
      {
        if i < n {
          assert vs[..n][i] == vs[i];
        }
      }
    }
  }

  /** A Service reference is encoded by class id and key and never queued. */
  lemma ServiceNeverQueued(env: Env, h: Handle, t: Transfer, fuel: nat)
    requires h < |env.objects| && env.objects[h].ServiceObj? && env.objects[h].ctor in env.serviceClasses
    requires fuel > 0
    ensures SerializeValue(env, Ref(h), t, fuel) ==
      Ok((ServiceReferenceValue(env.serviceClasses[env.objects[h].ctor].classId, env.objects[h].primaryKey), t))
  {
  }

  /**
   * An array is written with consecutive indices 0 .. n-1, one item per
   * element, a hole encoded as undefined.
   */
  lemma ArrayIndicesConsecutive(env: Env, h: Handle, t: Transfer, fuel: nat)
    requires h < |env.objects| && env.objects[h].ArrayObj?
    requires SerializeValue(env, Ref(h), t, fuel).Ok?
    ensures var w := SerializeValue(env, Ref(h), t, fuel).value.0;
      w.ArrayValue? && |w.items| == |env.objects[h].items| &&
      forall i :: 0 <= i < |w.items| ==> w.items[i].index == i && w.items[i].value.Some?
  {
    assert SerializeValue(env, Ref(h), t, fuel) == SerializeContainer(env, h, t, fuel);
  }

  // ---------------------------------------------------------------------
  // The state of one Data object sent with a request.

  /** The registry's version of an object, or 0 when it has none. */
  function VersionOf(versions: map<Handle, Unsigned>, h: Handle): (v: Unsigned)
    ensures h in versions ==> v == versions[h]
    ensures h !in versions ==> v == Zero
  {
    if h in versions then versions[h] else Zero
  }

  /**
   * createInboundDataDelta: the class id, the registry's version (0 when it
   * has none), the primary key and every own property, each encoded with
   * the same queue. No property is ever sent as deleted: the source passes
   * no deleted names, a defect it acknowledges.
   */
  function CreateInboundDataDelta(env: Env, versions: map<Handle, Unsigned>, h: Handle, t: Transfer, fuel: nat): (r: Result<(InboundDataDelta, Transfer)>)
    ensures !(h < |env.objects| && env.objects[h].DataObj? && env.objects[h].ctor in env.dataClasses) ==>
      r == Err(NotRegistered)
    ensures h < |env.objects| && env.objects[h].DataObj? && env.objects[h].ctor in env.dataClasses ==>
      var o := env.objects[h];
      var values := SerializeList(env, PropValues(o.props), t, fuel);
      (values.Err? ==> r == Err(values.error)) &&
      (values.Ok? ==>
        r.Ok? && r.value.1 == values.value.1 &&
        var d := r.value.0;
        d.classId == env.dataClasses[o.ctor].classId && d.primaryKey == o.primaryKey &&
        d.version == ToLong(VersionOf(versions, h)) && d.deletedProperties == [] &&
        |d.properties| == |o.props| &&
        forall i :: 0 <= i < |o.props| ==>
          d.properties[i].name == o.props[i].0 && d.properties[i].value == values.value.0[i])
  {
    if !(h < |env.objects| && env.objects[h].DataObj?) then Err(NotRegistered)
    else
      var o := env.objects[h];
      if o.ctor !in env.dataClasses then Err(NotRegistered)
      else
        match SerializeList(env, PropValues(o.props), t, fuel)
        case Err(e) => Err(e)
        case Ok(res) =>
          var props := seq(|o.props|, i requires 0 <= i < |o.props| => NestedProperty(o.props[i].0, res.0[i]));
          Ok((InboundDataDelta(env.dataClasses[o.ctor].classId, ToLong(VersionOf(versions, h)), o.primaryKey, props, []), res.1))
  }

  lemma CreateInboundDataDeltaKeepsInv(env: Env, versions: map<Handle, Unsigned>, h: Handle, t: Transfer, fuel: nat, popped: seq<Handle>)
    requires TransferInv(env, t, popped)
    requires CreateInboundDataDelta(env, versions, h, t, fuel).Ok?
    ensures TransferInv(env, CreateInboundDataDelta(env, versions, h, t, fuel).value.1, popped)
    ensures t.keys <= CreateInboundDataDelta(env, versions, h, t, fuel).value.1.keys
    ensures t.warpKey.Some? ==> CreateInboundDataDelta(env, versions, h, t, fuel).value.1.warpKey == t.warpKey
  {
    SerializeListKeepsInv(env, PropValues(env.objects[h].props), t, fuel, popped);
  }
}
