/**
 * The public model types: the Data and Service base constructors, the
 * instances the library builds without running a constructor
 * (createDataInstance, createMessageInstance), and the link between the
 * Data registry and the objects it names.
 */
module ModelTypes {
  import opened Wrappers
  import opened Keys
  import opened JsHeap
  import opened Registry

  /**
   * The registry and the heap agree: the registry is consistent, and every
   * object it holds a key for is a Data object in the heap carrying that
   * key's primary key.
   */
  ghost predicate Coherent(heap: Heap, dreg: DataRegistry)
    reads heap, dreg, dreg.classes, dreg.objects
  {
    dreg.Valid() && Agrees(heap.objects, dreg.objectKeys)
  }

  /** Every object holding a key is a Data object carrying that key's primary key. */
  predicate Agrees(objects: seq<Obj>, objectKeys: map<Handle, DataKey>)
  {
    forall h :: h in objectKeys ==>
      h < |objects| && objects[h].DataObj? && objects[h].primaryKey == objectKeys[h].primaryKey
  }

  /** The `primaryKey` getter of a Data or a Service. */
  function PrimaryKey(o: Obj): (pk: string)
    requires o.DataObj? || o.ServiceObj?
    ensures o.DataObj? ==> pk == o.primaryKey
    ensures o.ServiceObj? ==> pk == o.primaryKey
  {
    match o
    case DataObj(_, pk, _) => pk
    case ServiceObj(_, pk) => pk
  }

  /**
   * `new C(primaryKey)` for a Data class C: the key must be non-empty and
   * the class registered, and the object installs itself in the registry
   * before it stores its key, so a second live instance of the same class
   * and key is refused.
   */
  method NewData(heap: Heap, dreg: DataRegistry, ctor: Ctor, primaryKey: string) returns (r: Result<Handle>)
    requires Coherent(heap, dreg)
    modifies heap, dreg, dreg.objects
    ensures Coherent(heap, dreg)
    ensures primaryKey == "" ==> r == Err(Falsy("primaryKey"))
    ensures primaryKey != "" && ctor !in old(dreg.ctorToClassKey) ==> r == Err(NotRegistered)
    ensures primaryKey != "" && ctor in old(dreg.ctorToClassKey) ==>
      var key := DataKey(old(dreg.ctorToClassKey)[ctor], primaryKey);
      (r.Ok? <==> old(dreg.TryGetInstance(key)).None?) &&
      (r.Err? ==> r.error == LiveInstanceExists) &&
      (r.Ok? ==> dreg.TryGetInstance(key) == Some(r.value) && dreg.GetDataKey(r.value) == Ok(key))
    ensures r.Ok? ==> r.value == |old(heap.objects)| && heap.objects == old(heap.objects) + [DataObj(ctor, primaryKey, [])]
    ensures r.Ok? ==> PrimaryKey(heap.objects[r.value]) == primaryKey
    ensures r.Err? ==> heap.objects == old(heap.objects)
    ensures heap.trace == old(heap.trace)
    ensures dreg.ctorToClassKey == old(dreg.ctorToClassKey) && dreg.versions == old(dreg.versions)
    ensures dreg.updatedListeners == old(dreg.updatedListeners)
  {
    if primaryKey == "" {
      return Err(Falsy("primaryKey"));
    }
    var classKey := dreg.GetClassKey(ctor);
    if classKey.Err? {
      return Err(classKey.error);
    }
    var key := DataKey(classKey.value, primaryKey);
    var h := |heap.objects|;
    var installed := dreg.SetInstance(key, h);
    if installed.Fail? {
      return Err(installed.error);
    }
    var made := heap.Alloc(DataObj(ctor, primaryKey, []));
    assert made == h;
    r := Ok(h);
  }

  /** `new S(primaryKey)` for a Service class S: a non-empty key, and no registry is touched. */
  method NewService(heap: Heap, ctor: Ctor, primaryKey: string) returns (r: Result<Handle>)
    modifies heap
    ensures r.Ok? <==> primaryKey != ""
    ensures r.Err? ==> r.error == Falsy("primaryKey") && heap.objects == old(heap.objects)
    ensures r.Ok? ==> r.value == |old(heap.objects)| && heap.objects == old(heap.objects) + [ServiceObj(ctor, primaryKey)]
    ensures r.Ok? ==> PrimaryKey(heap.objects[r.value]) == primaryKey
    ensures heap.trace == old(heap.trace)
  {
    if primaryKey == "" {
      return Err(Falsy("primaryKey"));
    }
    var h := heap.Alloc(ServiceObj(ctor, primaryKey));
    r := Ok(h);
  }

  /**
   * createDataInstance: an object of the registered class carrying the key's
   * primary key, made without running the constructor and so not installed
   * in the registry; an unregistered class fails.
   */
  method CreateDataInstance(heap: Heap, dreg: DataRegistry, key: DataKey) returns (r: Result<Handle>)
    modifies heap
    ensures r.Ok? <==> old(dreg.GetCtor(key.classKey)).Ok?
    ensures r.Ok? ==> r.value == |old(heap.objects)|
    ensures r.Ok? ==> heap.objects == old(heap.objects) + [DataObj(old(dreg.GetCtor(key.classKey)).value, key.primaryKey, [])]
    ensures r.Err? ==> r.error == old(dreg.GetCtor(key.classKey)).error && heap.objects == old(heap.objects)
    ensures heap.trace == old(heap.trace)
  {
    var ctor := dreg.GetCtor(key.classKey);
    if ctor.Err? {
      return Err(ctor.error);
    }
    var h := heap.Alloc(DataObj(ctor.value, key.primaryKey, []));
    r := Ok(h);
  }

  /** createMessageInstance: an empty event object of the registered message class. */
  method CreateMessageInstance(heap: Heap, mreg: MessageRegistry, classKey: ClassKey) returns (r: Result<Handle>)
    modifies heap
    ensures r.Ok? <==> old(mreg.GetCtor(classKey)).Ok?
    ensures r.Ok? ==> r.value == |old(heap.objects)|
    ensures r.Ok? ==> heap.objects == old(heap.objects) + [MessageObj(old(mreg.GetCtor(classKey)).value, [])]
    ensures r.Err? ==> heap.objects == old(heap.objects)
    ensures heap.trace == old(heap.trace)
  {
    var ctor := mreg.GetCtor(classKey);
    if ctor.Err? {
      return Err(ctor.error);
    }
    var h := heap.Alloc(MessageObj(ctor.value, []));
    r := Ok(h);
  }
}
