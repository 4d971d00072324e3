/**
 * The JavaScript values and objects the library reads and writes: Data
 * and Service instances, Message (event) instances, and the plain
 * objects, arrays, maps and sets the value codec builds. Objects live in
 * an arena and are referred to by handle, so that a container filled in
 * later by a resolution callback is the same object the caller holds.
 * Calls of user listeners are recorded in a trace.
 */
module JsHeap {
  import opened Wrappers

  /** The identity of an object. */
  type Handle = nat

  /** The identity of a constructor function (a registered class). */
  type Ctor = nat

  /** The identity of a user listener function. */
  type ListenerId = nat

  /** A JavaScript value. Numbers and dates are kept as integers. */
  datatype Native =
    | Undefined
    | Null
    | Bool(b: bool)
    | Number(n: int)
    | Str(s: string)
    | BigInt(i: int)
    | Symbol(id: nat)
    | Function(id: nat)
    | Ref(h: Handle)

  /** An own property list, in definition order. */
  type Props = seq<(string, Native)>

  /** A JavaScript object, by the class it is an instance of. */
  datatype Obj =
    | DataObj(ctor: Ctor, primaryKey: string, props: Props)
    | ServiceObj(ctor: Ctor, primaryKey: string)
    | MessageObj(ctor: Ctor, props: Props)
    | PlainObj(props: Props)
    | ArrayObj(items: seq<Option<Native>>)
    | MapObj(entries: seq<(Native, Native)>)
    | SetObj(members: seq<Native>)
    | DateObj(time: int)
    | BoxedString(s: string)
    | BoxedNumber(n: int)
    | BoxedBoolean(b: bool)
    | LocalCell(value: Native)

  /** What a data-update listener receives: the object and whether it was deleted. */
  datatype DataUpdatedEvent = DataUpdatedEvent(target: Handle, deleted: bool)

  /** One call of a user listener. */
  datatype Fired =
    | MessageDelivered(listener: ListenerId, event: Handle)
    | UpdateDelivered(listener: ListenerId, update: DataUpdatedEvent)

  // ---------------------------------------------------------------------
  // Property lists.

  function Lookup(props: Props, name: string): (r: Option<Native>)
    ensures r.Some? <==> exists i :: 0 <= i < |props| && props[i].0 == name
  {
    if |props| == 0 then None
    else if props[0].0 == name then Some(props[0].1)
    else
      var r := Lookup(props[1..], name);
      assert r.Some? ==> exists i :: 0 <= i < |props[1..]| && props[1..][i].0 == name;
      assert (exists i :: 1 <= i < |props| && props[i].0 == name) ==> r.Some? by {
        if i :| 1 <= i < |props| && props[i].0 == name {
          assert props[1..][i - 1].0 == name;
        }
      }
      r
  }

  function Names(props: Props): (names: seq<string>)
    ensures |names| == |props|
    ensures forall i :: 0 <= i < |props| ==> names[i] == props[i].0
  {
    if |props| == 0 then [] else [props[0].0] + Names(props[1..])
  }

  /** Lookup in a list with a first entry: that entry, or the rest. */
  lemma LookupCons(head: (string, Native), rest: Props)
    ensures forall n :: Lookup([head] + rest, n) == if head.0 == n then Some(head.1) else Lookup(rest, n)
  {
    assert ([head] + rest)[1..] == rest;
  }

  /** `o[name] = v`: the property reads `v` afterwards and every other one reads as before. */
  function SetProp(props: Props, name: string, v: Native): (r: Props)
    ensures Lookup(r, name) == Some(v)
    ensures forall n :: n != name ==> Lookup(r, n) == Lookup(props, n)
  {
    if |props| == 0 then
      LookupCons((name, v), []);
      [(name, v)]
    else
      var head, tail := props[0], props[1..];
      assert props == [head] + tail;
      LookupCons(head, tail);
      if head.0 == name then
        LookupCons((name, v), tail);
        [(name, v)] + tail
      else
        var rest := SetProp(tail, name, v);
        LookupCons(head, rest);
        [head] + rest
  }

  /** `o[name] = v` keeps an existing property in its place and appends a new one. */
  lemma {:induction false} SetPropNames(props: Props, name: string, v: Native)
    ensures Names(SetProp(props, name, v)) == Names(props) + (if name in Names(props) then [] else [name])
  {
    if |props| == 0 {
      NamesCons((name, v), []);
    } else {
      var head, tail := props[0], props[1..];
      assert props == [head] + tail;
      NamesCons(head, tail);
      if head.0 == name {
        NamesCons((name, v), tail);
      } else {
        var rest := SetProp(tail, name, v);
        assert SetProp(props, name, v) == [head] + rest;
        SetPropNames(tail, name, v);
        NamesCons(head, rest);
        var added: seq<string> := if name in Names(tail) then [] else [name];
        assert [head.0] + (Names(tail) + added) == [head.0] + Names(tail) + added;
      }
    }
  }

  lemma NamesCons(head: (string, Native), rest: Props)
    ensures Names([head] + rest) == [head.0] + Names(rest)
  {
    assert ([head] + rest)[1..] == rest;
  }

  /** `delete o[name]`: the property goes, every other one keeps its value and place. */
  function RemoveProp(props: Props, name: string): (r: Props)
    ensures Lookup(r, name) == None
    ensures forall n :: n != name ==> Lookup(r, n) == Lookup(props, n)
    ensures |r| <= |props|
  {
    if |props| == 0 then []
    else if props[0].0 == name then RemoveProp(props[1..], name)
    else [props[0]] + RemoveProp(props[1..], name)
  }

  /** `array[index] = v`: the array grows, with holes, when the index is past its end. */
  function AssignIndex(items: seq<Option<Native>>, index: nat, v: Native): (r: seq<Option<Native>>)
    ensures |r| == if index < |items| then |items| else index + 1
    ensures r[index] == Some(v)
    ensures forall i :: 0 <= i < |items| && i != index ==> r[i] == items[i]
    ensures forall i :: |items| <= i < |r| && i != index ==> r[i] == None
  {
    if index < |items| then items[index := Some(v)]
    else items + seq(index - |items|, _ => None) + [Some(v)]
  }

  function MapLookup(entries: seq<(Native, Native)>, key: Native): (r: Option<Native>)
    ensures r.Some? <==> exists i :: 0 <= i < |entries| && entries[i].0 == key
  {
    if |entries| == 0 then None
    else if entries[0].0 == key then Some(entries[0].1)
    else
      var r := MapLookup(entries[1..], key);
      assert (exists i :: 1 <= i < |entries| && entries[i].0 == key) ==> r.Some? by {
        if i :| 1 <= i < |entries| && entries[i].0 == key {
          assert entries[1..][i - 1].0 == key;
        }
      }
      r
  }

  /** `map.set(k, v)`: an existing key keeps its place, a new one is appended. */
  function MapSet(entries: seq<(Native, Native)>, key: Native, v: Native): (r: seq<(Native, Native)>)
    ensures MapLookup(r, key) == Some(v)
    ensures forall k :: k != key ==> MapLookup(r, k) == MapLookup(entries, k)
    ensures |r| == if MapLookup(entries, key).Some? then |entries| else |entries| + 1
  {
    if |entries| == 0 then [(key, v)]
    else if entries[0].0 == key then [(key, v)] + entries[1..]
    else [entries[0]] + MapSet(entries[1..], key, v)
  }

  /** `set.add(v)`: a value already present is not added again. */
  function SetAdd(members: seq<Native>, v: Native): (r: seq<Native>)
    ensures v in r
    ensures forall x :: x in r <==> x in members || x == v
    ensures r == if v in members then members else members + [v]
  {
    if v in members then members else members + [v]
  }

  // ---------------------------------------------------------------------
  // What a resolution callback does with the value it receives.

  /** The effect of assigning a resolved value into an object. */
  datatype Effect =
    | AssignProperty(name: string)   // object[name] = value, or defineProperty
    | AssignItem(index: nat)         // array[index] = value
    | MapKeyOf(value: Native)        // map.set(resolved, value)
    | MapValueOf(key: Native)        // map.set(key, resolved)
    | AddMember                      // set.add(resolved)
    | AssignLocal                    // a captured local variable = resolved

  /** An effect applied to an object; one whose shape does not match leaves it unchanged. */
  function Affect(o: Obj, e: Effect, v: Native): (r: Obj)
    ensures r.DataObj? <==> o.DataObj?
    ensures r.DataObj? ==> r.ctor == o.ctor && r.primaryKey == o.primaryKey
    ensures e.AssignProperty? && (o.DataObj? || o.MessageObj? || o.PlainObj?) ==> (r.DataObj? || r.MessageObj? || r.PlainObj?) && Lookup(r.props, e.name) == Some(v)
    ensures e.AssignLocal? && o.LocalCell? ==> r == LocalCell(v)
  {
    match e
    case AssignProperty(name) =>
      (match o
       case DataObj(c, pk, props) => DataObj(c, pk, SetProp(props, name, v))
       case MessageObj(c, props) => MessageObj(c, SetProp(props, name, v))
       case PlainObj(props) => PlainObj(SetProp(props, name, v))
       case _ => o)
    case AssignItem(i) =>
      if o.ArrayObj? then ArrayObj(AssignIndex(o.items, i, v)) else o
    case MapKeyOf(value) =>
      if o.MapObj? then MapObj(MapSet(o.entries, v, value)) else o
    case MapValueOf(key) =>
      if o.MapObj? then MapObj(MapSet(o.entries, key, v)) else o
    case AddMember =>
      if o.SetObj? then SetObj(SetAdd(o.members, v)) else o
    case AssignLocal =>
      if o.LocalCell? then LocalCell(v) else o
  }

  /** An effect on the object at `h`; a handle that names no object changes nothing. */
  function Performed(objects: seq<Obj>, h: Handle, e: Effect, v: Native): (r: seq<Obj>)
    ensures |r| == |objects|
    ensures forall i :: 0 <= i < |objects| && i != h ==> r[i] == objects[i]
    ensures h < |objects| ==> r[h] == Affect(objects[h], e, v)
  {
    if h < |objects| then objects[h := Affect(objects[h], e, v)] else objects
  }

  /** A Data object without own properties; any other object is left as it is. */
  function Cleared(objects: seq<Obj>, h: Handle): (r: seq<Obj>)
    ensures |r| == |objects|
    ensures forall i :: 0 <= i < |objects| && i != h ==> r[i] == objects[i]
    ensures h < |objects| && objects[h].DataObj? ==>
      r[h] == DataObj(objects[h].ctor, objects[h].primaryKey, [])
  {
    if h < |objects| && objects[h].DataObj? then
      objects[h := DataObj(objects[h].ctor, objects[h].primaryKey, [])]
    else objects
  }

  function PropDeleted(objects: seq<Obj>, h: Handle, name: string): (r: seq<Obj>)
    ensures |r| == |objects|
    ensures forall i :: 0 <= i < |objects| && i != h ==> r[i] == objects[i]
    ensures h < |objects| && objects[h].DataObj? ==>
      r[h] == DataObj(objects[h].ctor, objects[h].primaryKey, RemoveProp(objects[h].props, name))
  {
    if h < |objects| && objects[h].DataObj? then
      objects[h := DataObj(objects[h].ctor, objects[h].primaryKey, RemoveProp(objects[h].props, name))]
    else objects
  }

  /** The object arena and the trace of listener calls. */
  class Heap {
    var objects: seq<Obj>
    var trace: seq<Fired>

    constructor()
      ensures objects == [] && trace == []
    {
      objects := [];
      trace := [];
    }

    predicate Has(h: Handle)
      reads this
    {
      h < |objects|
    }

    predicate IsData(h: Handle)
      reads this
    {
      h < |objects| && objects[h].DataObj?
    }

    /** A new object; every existing object is unchanged. */
    method Alloc(o: Obj) returns (h: Handle)
      modifies this
      ensures h == |old(objects)| && objects == old(objects) + [o]
      ensures trace == old(trace)
    {
      h := |objects|;
      objects := objects + [o];
    }

    /** One callback effect on one object; every other object is unchanged. */
    method Perform(h: Handle, e: Effect, v: Native)
      modifies this
      ensures objects == Performed(old(objects), h, e, v)
      ensures trace == old(trace)
    {
      objects := Performed(objects, h, e, v);
    }

    /** Drops every own property of a Data object (`delete object[name]` for each name). */
    method ClearProps(h: Handle)
      modifies this
      ensures objects == Cleared(old(objects), h)
      ensures trace == old(trace)
    {
      objects := Cleared(objects, h);
    }

    /** `delete object[name]` on a Data object. */
    method DeleteProp(h: Handle, name: string)
      modifies this
      ensures objects == PropDeleted(old(objects), h, name)
      ensures trace == old(trace)
    {
      objects := PropDeleted(objects, h, name);
    }

    /** One call of a user listener. */
    method Fire(f: Fired)
      modifies this
      ensures trace == old(trace) + [f] && objects == old(objects)
    {
      trace := trace + [f];
    }

    /** Listener calls one after the other, each finishing before the next starts. */
    method FireAll(calls: seq<Fired>)
      modifies this
      ensures trace == old(trace) + calls && objects == old(objects)
    {
      var i := 0;
      while i < |calls|
        invariant 0 <= i <= |calls|
        invariant trace == old(trace) + calls[..i] && objects == old(objects)
      {
        Fire(calls[i]);
        assert calls[..i + 1] == calls[..i] + [calls[i]];
        i := i + 1;
      }
      assert calls[..i] == calls;
    }
  }
}
